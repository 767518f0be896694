/** The signatures of armors and jewels for a query. */
module Keys {
  import opened Packing
  import opened Signatures
  import opened JewelSums
  import opened Datasets

  /** The last points listed for a skill, as the byte loops of the constructors leave them. */
  function LastPoints(effects: seq<Effect>, id: int): int {
    if effects == [] then 0
    else
      var last := effects[|effects| - 1];
      if last.id == id then last.points else LastPoints(effects[..|effects| - 1], id)
  }

  lemma LastPointsIsPointsOf(effects: seq<Effect>, id: int)
    requires DistinctIds(effects)
    ensures LastPoints(effects, id) == PointsOf(effects, id)
  {
    PointsOfDistinct(effects, id);
    LastPointsListed(effects, id);
  }

  lemma {:induction false} LastPointsListed(effects: seq<Effect>, id: int)
    ensures (exists i :: 0 <= i < |effects| && effects[i].id == id && effects[i].points == LastPoints(effects, id))
         || (LastPoints(effects, id) == 0 && forall i :: 0 <= i < |effects| ==> effects[i].id != id)
  {
    if effects != [] && effects[|effects| - 1].id != id {
      var front := effects[..|effects| - 1];
      LastPointsListed(front, id);
      if i :| 0 <= i < |front| && front[i].id == id && front[i].points == LastPoints(front, id) {
        assert effects[i] == front[i];
      } else {
        assert forall i :: 0 <= i < |front| ==> effects[i] == front[i];
      }
    }
  }

  function EffectBytes(own: seq<Effect>, effects: seq<Effect>): seq<int>
    requires |effects| <= EFFECTS
  {
    seq(EFFECTS, e requires 0 <= e < EFFECTS =>
      if e < |effects| then AsChar(LastPoints(own, effects[e].id)) else 0)
  }

  function SlotBytes(slots: int): seq<int> {
    [if slots == 1 then 1 else 0, if slots == 2 then 1 else if slots == 3 then 16 else 0]
  }

  /** Signature(armor, effects) */
  function ArmorSignature(armor: Armor, effects: seq<Effect>): Signature
    requires |effects| <= EFFECTS
  {
    if armor.IsTorsoUp() then ZERO[2 := 1]
    else SlotBytes(armor.slots) + [if armor.part == BODY then 1 else 0] + EffectBytes(armor.effects, effects)
  }

  /** Whether a jewel has positive points in one of the skills. */
  predicate JewelValid(jewel: Jewel, skillIds: seq<int>) {
    exists s, e :: 0 <= s < |skillIds| && 0 <= e < |jewel.effects| &&
                   skillIds[s] == jewel.effects[e].id && jewel.effects[e].points > 0
  }

  /** Signature(jewel, skill_ids, effects, &valid) for a valid jewel. */
  function JewelSignature(jewel: Jewel, effects: seq<Effect>): Signature
    requires |effects| <= EFFECTS
  {
    SlotBytes(jewel.slots) + [0] + EffectBytes(jewel.effects, effects)
  }

  function TruePoints(own: seq<Effect>, effects: seq<Effect>): seq<int>
    requires |effects| <= EFFECTS
  {
    seq(EFFECTS, e requires 0 <= e < EFFECTS => if e < |effects| then PointsOf(own, effects[e].id) else 0)
  }

  /** What an armor's signature packs. */
  function ArmorFields(armor: Armor, effects: seq<Effect>): Fields
    requires |effects| <= EFFECTS
  {
    if armor.IsTorsoUp() then NO_FIELDS.(multiplier := 1)
    else Fields(Single(armor.slots), NO_SLOTS, if armor.part == BODY then 1 else 0,
                TruePoints(armor.effects, effects))
  }

  lemma ArmorPacks(armor: Armor, effects: seq<Effect>)
    requires |effects| <= EFFECTS && DistinctIds(armor.effects)
    ensures ArmorSignature(armor, effects) == Pack(ArmorFields(armor, effects))
  {
    forall i | 0 <= i < BYTES
      ensures ArmorSignature(armor, effects)[i] == Pack(ArmorFields(armor, effects))[i]
    {
      ArmorPacksByte(armor, effects, i);
    }
  }

  lemma ArmorPacksByte(armor: Armor, effects: seq<Effect>, i: nat)
    requires |effects| <= EFFECTS && DistinctIds(armor.effects) && i < BYTES
    ensures ArmorSignature(armor, effects)[i] == AsChar(Unwrapped(ArmorFields(armor, effects), i))
  {
    hide LastPoints, PointsOf, Single, SlotBytes, EffectBytes, TruePoints, AsChar;
    SlotByte(armor.slots);
    SmallBytes();
    if armor.IsTorsoUp() {
      TorsoByte(effects, i);
    } else if i >= EFFECTS_BEGIN {
      EffectByte(armor.effects, effects, i - EFFECTS_BEGIN);
    }
  }

  lemma SmallBytes()
    ensures AsChar(0) == 0 && AsChar(1) == 1
  {
  }

  lemma TorsoByte(effects: seq<Effect>, i: nat)
    requires i < BYTES
    ensures ZERO[2 := 1][i] == AsChar(Unwrapped(NO_FIELDS.(multiplier := 1), i))
  {
  }

  lemma EffectByte(own: seq<Effect>, effects: seq<Effect>, e: nat)
    requires |effects| <= EFFECTS && DistinctIds(own) && e < EFFECTS
    ensures EffectBytes(own, effects)[e] == AsChar(TruePoints(own, effects)[e])
  {
    hide LastPoints, PointsOf;
    if e < |effects| {
      LastPointsIsPointsOf(own, effects[e].id);
    }
  }

  lemma SlotByte(slots: int)
    ensures SlotBytes(slots) == [AsChar(Single(slots).one), AsChar(Single(slots).two + 16 * Single(slots).three)]
  {
  }

  lemma JewelPacks(jewel: Jewel, effects: seq<Effect>)
    requires |effects| <= EFFECTS && DistinctIds(jewel.effects)
    ensures IsJewelKey(JewelSignature(jewel, effects), jewel.slots)
    ensures forall e :: 0 <= e < EFFECTS ==>
      GetPoints(JewelSignature(jewel, effects), e) == AsChar(TruePoints(jewel.effects, effects)[e])
  {
    hide LastPoints, PointsOf;
    forall e | 0 <= e < EFFECTS
      ensures GetPoints(JewelSignature(jewel, effects), e) == AsChar(TruePoints(jewel.effects, effects)[e])
    {
      if e < |effects| {
        LastPointsIsPointsOf(jewel.effects, effects[e].id);
      }
    }
  }

  // ---------- Lists of jewels ----------

  /** How many jewels of one size a list of jewel ids holds. */
  function SizeCount(data: Data, ids: seq<int>, size: int): int
    requires data.AreJewels(ids)
  {
    if ids == [] then 0 else (if data.jewels[ids[0]].slots == size then 1 else 0) + SizeCount(data, ids[1..], size)
  }

  function SizesOf(data: Data, ids: seq<int>): Slots
    requires data.AreJewels(ids)
  {
    Slots(SizeCount(data, ids, 1), SizeCount(data, ids, 2), SizeCount(data, ids, 3))
  }

  /** The points a list of jewels gives to a skill. */
  function SkillPoints(data: Data, ids: seq<int>, skill: int): int
    requires data.AreJewels(ids)
  {
    if ids == [] then 0 else PointsOf(data.jewels[ids[0]].effects, skill) + SkillPoints(data, ids[1..], skill)
  }

  lemma {:induction false} SizesConcat(data: Data, a: seq<int>, b: seq<int>, size: int)
    requires data.AreJewels(a) && data.AreJewels(b)
    ensures data.AreJewels(a + b)
    ensures SizeCount(data, a + b, size) == SizeCount(data, a, size) + SizeCount(data, b, size)
  {
    if a == [] {
      assert a + b == b;
    } else {
      assert (a + b)[1..] == a[1..] + b;
      SizesConcat(data, a[1..], b, size);
    }
  }

  lemma {:induction false} PointsConcat(data: Data, a: seq<int>, b: seq<int>, skill: int)
    requires data.AreJewels(a) && data.AreJewels(b)
    ensures data.AreJewels(a + b)
    ensures SkillPoints(data, a + b, skill) == SkillPoints(data, a, skill) + SkillPoints(data, b, skill)
  {
    hide PointsOf;
    if a == [] {
      assert a + b == b;
    } else {
      assert (a + b)[1..] == a[1..] + b;
      PointsConcat(data, a[1..], b, skill);
    }
  }

  lemma {:induction false} SizesOfSame(data: Data, ids: seq<int>, same: int, size: int)
    requires data.AreJewels(ids) && forall n :: 0 <= n < |ids| ==> data.jewels[ids[n]].slots == same
    ensures SizeCount(data, ids, size) == if same == size then |ids| else 0
  {
    if ids != [] {
      SizesOfSame(data, ids[1..], same, size);
    }
  }
}
