/** The ranges in which a query's point totals must stay, and what they give: bytes that never wrap. */
module PointBounds {
  import opened Packing
  import opened Signatures
  import opened JewelSums
  import opened JewelPlans
  import opened SlotClients
  import opened Datasets
  import opened Keys
  import opened Scorings
  import opened FoundationSteps
  import opened Foundations
  import opened SetTotals
  import opened SplitSteps
  import opened Candidates

  /** A jewel that the query admits and that helps with some effect. */
  predicate Usable(data: Data, query: Query, id: int) {
    && data.IsJewel(id) && 1 <= data.jewels[id].slots <= 3
    && query.jewelFilter.Validate(id) && JewelValid(data.jewels[id], SkillIds(query.effects))
  }

  predicate AllUsable(data: Data, query: Query, ids: seq<int>) {
    forall n :: 0 <= n < |ids| ==> Usable(data, query, ids[n])
  }

  /** `ids` outside and `bodyIds` inside a body piece that counts several times fit the slots of the set. */
  predicate JewelsFit(data: Data, query: Query, t: seq<int>, ids: seq<int>, bodyIds: seq<int>)
    requires IsWholeArmors(data, t)
  {
    && AllUsable(data, query, ids) && AllUsable(data, query, bodyIds)
    && Fits(FreeSlots(data, t), SizesOf(data, ids))
    && SizesOf(data, bodyIds).Weight() <= BodySpace(data, t)
    && (Multiplied(data, t) < 2 ==> bodyIds == [])
  }

  predicate IsWholeArmors(data: Data, t: seq<int>) {
    AreArmors(data, t) && t != []
  }

  function JewelPoints(data: Data, ids: seq<int>, bodyIds: seq<int>, multiplier: int, skill: int): int
    requires data.AreJewels(ids) && data.AreJewels(bodyIds)
  {
    SkillPoints(data, ids, skill) + Scaled(SkillPoints(data, bodyIds, skill), multiplier)
  }

  predicate InByte(x: int) { -128 <= x < 128 }

  ghost predicate IsAllowed(data: Data, query: Query, t: seq<int>) {
    IsWhole(data, t) && ScopeOf(data, query).Chosen(t, 0)
  }

  /** Whatever armors and jewels are put together, no point total leaves the range of a byte. */
  ghost predicate NoOverflow(data: Data, query: Query) {
    && (forall id, e {:trigger InByte(PointsOf(data.jewels[id].effects, query.effects[e].id))} ::
          Usable(data, query, id) && 0 <= e < |query.effects| ==>
          InByte(PointsOf(data.jewels[id].effects, query.effects[e].id)))
    && (forall t, ids, bodyIds, e {:trigger TotalsInByte(data, t, ids, bodyIds, query.effects[e].id)} ::
          IsAllowed(data, query, t) && JewelsFit(data, query, t, ids, bodyIds) && 0 <= e < |query.effects| ==>
          TotalsInByte(data, t, ids, bodyIds, query.effects[e].id))
  }

  predicate TotalsInByte(data: Data, t: seq<int>, ids: seq<int>, bodyIds: seq<int>, skill: int)
    requires IsWholeArmors(data, t) && data.AreJewels(ids) && data.AreJewels(bodyIds)
  {
    var jewels := JewelPoints(data, ids, bodyIds, Multiplied(data, t), skill);
    InByte(jewels) && InByte(SetPoints(data, t, skill) + jewels)
  }

  /** The points by which trees are split stay within the keys of the splitter's maps. */
  ghost predicate SplitKeysFit(data: Data, query: Query) {
    forall t, e, scoring: Scoring ::
      IsAllowed(data, query, t) && FOUNDATION_NUM <= e < |query.effects| && ScoresSkill(scoring, data, query.effects[e].id) ==>
      scoring.Between(t, Multiplied(data, t), LOWEST_KEY, HIGHEST_KEY)
  }

  // ---------- The jewels behind the keys ----------

  lemma UsableAreJewels(data: Data, query: Query, ids: seq<int>)
    requires AllUsable(data, query, ids)
    ensures data.AreJewels(ids)
  {
    assert forall n :: 0 <= n < |ids| ==> Usable(data, query, ids[n]);
  }

  /** The jewels may be used, and each helps with one of the skills. */
  predicate AllHelp(data: Data, query: Query, skills: seq<int>, ids: seq<int>) {
    AllUsable(data, query, ids) && forall n :: 0 <= n < |ids| ==> data.IsJewel(ids[n]) && JewelValid(data.jewels[ids[n]], skills)
  }

  predicate AreAsked(query: Query, skills: seq<int>) {
    forall s :: 0 <= s < |skills| ==> skills[s] in SkillIds(query.effects)
  }

  lemma AdmittedUsable(data: Data, query: Query, skills: seq<int>, id: int)
    requires AreAsked(query, skills) && Admits(data, skills, query.effects, query.jewelFilter, id) && 1 <= data.jewels[id].slots <= 3
    ensures Usable(data, query, id)
  {
    var jewel := data.jewels[id];
    var s, e :| 0 <= s < |skills| && 0 <= e < |jewel.effects| && skills[s] == jewel.effects[e].id && jewel.effects[e].points > 0;
    var i :| 0 <= i < |SkillIds(query.effects)| && SkillIds(query.effects)[i] == skills[s];
    assert SkillIds(query.effects)[i] == jewel.effects[e].id;
  }

  lemma JewelsOfKeys(data: Data, query: Query, skills: seq<int>, keys: seq<Signature>, size: int) returns (ids: seq<int>)
    requires |query.effects| <= EFFECTS && AreAsked(query, skills) && 1 <= size <= 3
    requires AllIn(keys, AdmittedClasses(data, skills, query.effects, query.jewelFilter)[size])
    ensures |ids| == |keys| && AllHelp(data, query, skills, ids)
    ensures forall n :: 0 <= n < |ids| ==>
      data.jewels[ids[n]].slots == size && JewelSignature(data.jewels[ids[n]], query.effects) == keys[n]
  {
    hide JewelSignature, JewelValid, AreAsked;
    ids := [];
    for n := 0 to |keys|
      invariant |ids| == n && AllHelp(data, query, skills, ids)
      invariant forall i :: 0 <= i < n ==>
        data.jewels[ids[i]].slots == size && JewelSignature(data.jewels[ids[i]], query.effects) == keys[i]
    {
      assert keys[n] in AdmittedClasses(data, skills, query.effects, query.jewelFilter)[size];
      var id :| 0 <= id < |data.jewels| && Admits(data, skills, query.effects, query.jewelFilter, id)
        && data.jewels[id].slots == size && keys[n] == JewelSignature(data.jewels[id], query.effects);
      AdmittedUsable(data, query, skills, id);
      ids := ids + [id];
    }
  }

  /** With jewels whose points fit a byte, the keys' bytes are the jewels' points. */
  lemma {:induction false} KeyPointsAre(data: Data, query: Query, keys: seq<Signature>, ids: seq<int>, e: nat)
    requires Ready(data, query) && |query.effects| <= EFFECTS && e < |query.effects| && |ids| == |keys|
    requires NoOverflow(data, query) && AllUsable(data, query, ids)
    requires forall n :: 0 <= n < |ids| ==> JewelSignature(data.jewels[ids[n]], query.effects) == keys[n]
    ensures data.AreJewels(ids) && SkillPoints(data, ids, query.effects[e].id) == PointSum(keys, e)
  {
    hide JewelSignature, JewelValid, PointsOf, NoOverflow;
    if keys != [] {
      KeyPointsAre(data, query, keys[1..], ids[1..], e);
      OneKeyPoints(data, query, ids[0], e);
    }
  }

  lemma OneKeyPoints(data: Data, query: Query, id: int, e: nat)
    requires Ready(data, query) && |query.effects| <= EFFECTS && e < |query.effects|
    requires NoOverflow(data, query) && Usable(data, query, id)
    ensures GetPoints(JewelSignature(data.jewels[id], query.effects), e) == PointsOf(data.jewels[id].effects, query.effects[e].id)
  {
    hide JewelSignature, PointsOf, JewelValid;
    assert data.IsJewel(id) && InByte(PointsOf(data.jewels[id].effects, query.effects[e].id));
    JewelPacks(data.jewels[id], query.effects);
  }

  lemma QueryClassesAre(data: Data, query: Query)
    requires |query.effects| <= EFFECTS
    ensures QueryClasses(data, query) == AdmittedClasses(data, SkillIds(query.effects), query.effects, query.jewelFilter)
    ensures AreAsked(query, SkillIds(query.effects))
  {
  }

  /** Concrete jewels for a choice of keys. */
  lemma JewelsOfChoice(data: Data, query: Query, skills: seq<int>, choice: Choice) returns (ids: seq<int>)
    requires Ready(data, query) && |query.effects| <= EFFECTS && NoOverflow(data, query) && AreAsked(query, skills)
    requires choice.From(AdmittedClasses(data, skills, query.effects, query.jewelFilter))
    ensures AllHelp(data, query, skills, ids) && data.AreJewels(ids) && SizesOf(data, ids) == choice.Counts()
    ensures forall e :: 0 <= e < |query.effects| ==> SkillPoints(data, ids, query.effects[e].id) == ChoicePoints(choice, e)
    ensures choice == NO_JEWELS ==> ids == []
  {
    hide JewelSignature, JewelValid, PointsOf, NoOverflow, SizeCount, Usable, SkillPoints, PointSum, AdmittedClasses, AreAsked;
    var ones := JewelsOfKeys(data, query, skills, choice.ones, 1);
    var twos := JewelsOfKeys(data, query, skills, choice.twos, 2);
    var threes := JewelsOfKeys(data, query, skills, choice.threes, 3);
    ids := ones + twos + threes;
    assert AllUsable(data, query, ids);
    UsableAreJewels(data, query, ones);
    UsableAreJewels(data, query, twos);
    UsableAreJewels(data, query, threes);
    UsableAreJewels(data, query, ids);
    ThreeSizes(data, ones, twos, threes);
    forall e | 0 <= e < |query.effects|
      ensures SkillPoints(data, ids, query.effects[e].id) == ChoicePoints(choice, e)
    {
      PointsConcat(data, ones + twos, threes, query.effects[e].id);
      PointsConcat(data, ones, twos, query.effects[e].id);
      KeyPointsAre(data, query, choice.ones, ones, e);
      KeyPointsAre(data, query, choice.twos, twos, e);
      KeyPointsAre(data, query, choice.threes, threes, e);
    }
  }

  lemma ThreeSizes(data: Data, ones: seq<int>, twos: seq<int>, threes: seq<int>)
    requires data.AreJewels(ones) && data.AreJewels(twos) && data.AreJewels(threes) && data.AreJewels(ones + twos + threes)
    requires forall n :: 0 <= n < |ones| ==> data.jewels[ones[n]].slots == 1
    requires forall n :: 0 <= n < |twos| ==> data.jewels[twos[n]].slots == 2
    requires forall n :: 0 <= n < |threes| ==> data.jewels[threes[n]].slots == 3
    ensures SizesOf(data, ones + twos + threes) == Slots(|ones|, |twos|, |threes|)
  {
    hide SizeCount;
    forall size | 1 <= size <= 3
      ensures SizeCount(data, ones + twos + threes, size)
           == if size == 1 then |ones| else if size == 2 then |twos| else |threes|
    {
      SizesConcat(data, ones + twos, threes, size);
      SizesConcat(data, ones, twos, size);
      SizesOfSame(data, ones, 1, size);
      SizesOfSame(data, twos, 2, size);
      SizesOfSame(data, threes, 3, size);
    }
  }

  /** The points of a plan for an allowed set, alone and with those of the set. */
  lemma PlanInByte(data: Data, query: Query, t: seq<int>, plan: Plan, e: nat)
    requires Ready(data, query) && |query.effects| <= EFFECTS && NoOverflow(data, query) && IsAllowed(data, query, t)
    requires plan.From(QueryClasses(data, query)) && plan.FitsIn(FreeSlots(data, t), BodySpace(data, t), Multiplied(data, t))
    requires e < |query.effects|
    ensures InByte(plan.Points(Multiplied(data, t), e))
    ensures InByte(SetPoints(data, t, query.effects[e].id) + plan.Points(Multiplied(data, t), e))
  {
    hide NoOverflow, Usable, ChoicePoints, QueryClasses, SetPoints, Scope.Chosen, FreeSlots, BodySpace, Fits, Data.Valid,
      Multiplied, SkillPoints, Slots.Weight, Choice.From, AllUsable;
    QueryClassesAre(data, query);
    var ids := JewelsOfChoice(data, query, SkillIds(query.effects), plan.free);
    var bodyIds := JewelsOfChoice(data, query, SkillIds(query.effects), plan.body);
    assert JewelsFit(data, query, t, ids, bodyIds);
    TotalsOf(data, query, t, ids, bodyIds, e);
    assert JewelPoints(data, ids, bodyIds, Multiplied(data, t), query.effects[e].id) == plan.Points(Multiplied(data, t), e);
  }

  /** No byte of a planned key wraps, nor does its sum with the points of the set it is planned for. */
  lemma NoWrap(data: Data, query: Query, t: seq<int>, count: nat, key: Signature, jewelKey: Signature, e: nat)
    requires Ready(data, query) && count <= |query.effects| <= EFFECTS && NoOverflow(data, query)
    requires SetKeyed(data, query, t, count, key) && HasPlan(data, query, key, jewelKey) && e < |query.effects|
    ensures InByte(SetPoints(data, t, query.effects[e].id) + GetPoints(jewelKey, e))
  {
    hide Pack, SetFields, KeySlots, BodySlotSum, Multiplier, NoOverflow, Plan.Total, QueryClasses, BodySlots, Data.Valid,
      GetPoints, SetPoints, Scope.Chosen, IsJewelKey, Plan.Points, Choice.From, Plan.FitsIn, FreeSlots, BodySpace, Multiplied;
    WholeReadsBack(data, query.effects[..count], t);
    WholeBounds(data, t);
    var slots, extra, m := KeySlots(key), BodySlotSum(key), Multiplier(key);
    var plan: Plan :| IsPlanFor(plan, jewelKey, QueryClasses(data, query), slots, extra, m);
    QueryKeysAreJewelKeys(data, query);
    BodySpaceBound(data, t);
    PlanReadsBack(plan, m, QueryClasses(data, query), slots, extra);
    PlanInByte(data, query, t, plan, e);
  }

  lemma BodySpaceBound(data: Data, t: seq<int>)
    requires data.Valid() && IsWhole(data, t)
    ensures 0 <= BodySpace(data, t) <= 3
  {
    WholeBounds(data, t);
  }

  lemma TotalsOf(data: Data, query: Query, t: seq<int>, ids: seq<int>, bodyIds: seq<int>, e: nat)
    requires NoOverflow(data, query) && IsAllowed(data, query, t) && e < |query.effects|
    requires JewelsFit(data, query, t, ids, bodyIds)
    ensures data.AreJewels(ids) && data.AreJewels(bodyIds) && TotalsInByte(data, t, ids, bodyIds, query.effects[e].id)
  {
    hide Usable, JewelPoints, SetPoints, Scope.Chosen, Fits;
    UsableAreJewels(data, query, ids);
    UsableAreJewels(data, query, bodyIds);
  }

  // ---------- Splitting by points ----------

  lemma {:induction false} LowerPoints(scoring: Scoring, data: Data, t: seq<int>, m: int, skill: int)
    requires ScoresSkill(scoring, data, skill) && AreArmors(data, t)
    requires forall i :: 0 <= i < |t| ==> data.armors[t[i]].part != BODY
    ensures scoring.SetPoints(t, m) == ArmorPoints(data, t, skill)
  {
    hide PointsOf;
    if t != [] {
      assert data.IsArmor(t[0]);
      LowerPoints(scoring, data, t[1..], m, skill);
    }
  }

  /** The splitter's points of a set are the set's points. */
  lemma ScoringPoints(scoring: Scoring, data: Data, t: seq<int>, skill: int)
    requires data.Valid() && ScoresSkill(scoring, data, skill) && IsWhole(data, t)
    ensures scoring.SetPoints(t, Multiplied(data, t)) == SetPoints(data, t, skill)
  {
    hide PointsOf, Scoring.SetPoints, ArmorPoints, PartsWith;
    WholeBounds(data, t);
    LowerPoints(scoring, data, t[1..], Multiplied(data, t), skill);
    SetPointsCons(scoring, t, Multiplied(data, t));
    assert data.IsArmor(t[0]);
  }

  /** Counting one more effect adds its points to the key. */
  lemma OneMoreEffect(data: Data, query: Query, t: seq<int>, count: nat)
    requires AreArmors(data, t) && t != [] && count < |query.effects| <= EFFECTS
    ensures AddPoints(Pack(SetFields(data, query.effects[..count], t)), count, SetPoints(data, t, query.effects[count].id))
         == Pack(SetFields(data, query.effects[..count + 1], t))
  {
    hide SetPoints, FreeSlots, Multiplied, Single, AsChar;
    var f, g := SetFields(data, query.effects[..count], t), SetFields(data, query.effects[..count + 1], t);
    var p := SetPoints(data, t, query.effects[count].id);
    forall i | 0 <= i < BYTES
      ensures AddPoints(Pack(f), count, p)[i] == Pack(g)[i]
    {
      if i == EFFECTS_BEGIN + count {
        AsCharAdd(0, p);
        CharZero(p);
      } else {
        assert Unwrapped(f, i) == Unwrapped(g, i);
      }
    }
  }

  lemma SmallChar(x: int)
    ensures InByte(x) ==> AsChar(x) == x
  {
  }

  lemma CharZero(p: int)
    ensures AsChar(0) == 0 && AsChar(AsChar(p)) == AsChar(p)
  {
  }
}
