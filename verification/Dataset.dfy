/** Armors, jewels, skills, the query and its filters, and what an armor set is worth. */
module Datasets {
  const HEAD := 0
  const GEAR := 4
  const AMULET := 5
  const BODY := 6
  const PART_NUM := 7

  /** A weapon type or a gender: two exclusive kinds, and "both". */
  const KIND_BOTH := 2

  datatype Effect = Effect(id: int, points: int)

  datatype Armor = Armor(part: int, weaponType: int, gender: int, rare: int,
                         maxDefense: int, slots: int, effects: seq<Effect>)
  {
    predicate IsTorsoUp() {
      |effects| == 1 && effects[0].id == 0
    }
  }

  datatype Jewel = Jewel(slots: int, effects: seq<Effect>)

  /** The loaded tables. `armors` is the arsenal: the predefined pieces and the query's own amulets.
      A skill system is the list of point thresholds of its skills. */
  datatype Data = Data(armors: seq<Armor>, jewels: seq<Jewel>, skills: map<int, seq<int>>)
  {
    predicate IsArmor(id: int) { 0 <= id < |armors| }
    predicate IsJewel(id: int) { 0 <= id < |jewels| }

    predicate AreJewels(ids: seq<int>) {
      forall n :: 0 <= n < |ids| ==> 0 <= ids[n] < |jewels|
    }

    /** What the engine takes for granted about the tables. */
    ghost predicate Valid() {
      && (forall id :: IsArmor(id) ==> ValidArmor(armors[id]))
      && (forall id :: IsJewel(id) ==> 0 <= jewels[id].slots <= 3 && DistinctIds(jewels[id].effects))
    }
  }

  ghost predicate ValidArmor(armor: Armor) {
    && 0 <= armor.part < PART_NUM && 0 <= armor.slots <= 3 && DistinctIds(armor.effects)
    && (armor.IsTorsoUp() ==> armor.part < GEAR && armor.slots == 0)
  }

  ghost predicate DistinctIds(effects: seq<Effect>) {
    forall i, j :: 0 <= i < j < |effects| ==> effects[i].id != effects[j].id
  }

  /** All points that a list of effects gives to one skill. */
  function PointsOf(effects: seq<Effect>, id: int): int {
    if effects == [] then 0
    else (if effects[0].id == id then effects[0].points else 0) + PointsOf(effects[1..], id)
  }

  /** A skill that occurs in the list once has the points of that occurrence; others have none. */
  lemma {:induction false} PointsOfDistinct(effects: seq<Effect>, id: int)
    requires DistinctIds(effects)
    ensures forall i :: 0 <= i < |effects| && effects[i].id == id ==> PointsOf(effects, id) == effects[i].points
    ensures (forall i :: 0 <= i < |effects| ==> effects[i].id != id) ==> PointsOf(effects, id) == 0
  {
    if effects != [] {
      PointsOfDistinct(effects[1..], id);
      forall i | 0 <= i < |effects| && effects[i].id == id
        ensures PointsOf(effects, id) == effects[i].points
      {
        assert forall j :: 0 <= j < |effects| - 1 ==> effects[1..][j] == effects[j + 1];
        if i > 0 {
          assert effects[1..][i - 1].id == id;
        }
      }
    }
  }

  /** Points that count several times. */
  function Scaled(points: int, multiplier: int): int { points * multiplier }

  lemma ScaledAdds(x: int, y: int, m: int)
    ensures Scaled(x + y, m) == Scaled(x, m) + Scaled(y, m)
    ensures Scaled(0, m) == 0 && Scaled(x, 1) == x
  {
  }

  lemma ScaledGrows(x: int, y: int, m: int)
    requires x <= y && m >= 0
    ensures Scaled(x, m) <= Scaled(y, m)
  {
  }

  predicate AreArmors(data: Data, ids: seq<int>) {
    forall i :: 0 <= i < |ids| ==> data.IsArmor(ids[i])
  }

  // ---------- Query ----------

  datatype ArmorFilter = ArmorFilter(minRare: int, maxRare: int, weaponType: int, weaponSlots: int,
                                     gender: int, whitelist: set<int>, blacklist: set<int>)
  {
    predicate Validate(armor: Armor, id: int) {
      && id !in blacklist
      && !(armor.part != GEAR && armor.part != AMULET && whitelist != {} && id !in whitelist)
      && (armor.weaponType == weaponType || armor.weaponType == KIND_BOTH)
      && (armor.gender == gender || armor.gender == KIND_BOTH)
      && (armor.part == GEAR || armor.part == AMULET || minRare <= armor.rare <= maxRare)
      && (armor.part == GEAR ==> armor.slots == weaponSlots)
    }
  }

  datatype JewelFilter = JewelFilter(blacklist: set<int>)
  {
    predicate Validate(id: int) { id !in blacklist }
  }

  datatype Query = Query(effects: seq<Effect>, defense: int, maxResults: int, avoidNegative: bool,
                         armorFilter: ArmorFilter, jewelFilter: JewelFilter)
  {
    ghost predicate Valid() {
      && 1 <= |effects| <= 13 && DistinctIds(effects)
      && (forall i :: 0 <= i < |effects| ==> 0 < effects[i].points < 128 && effects[i].id != 0)
      && 0 <= armorFilter.weaponType <= KIND_BOTH && 0 <= armorFilter.gender <= KIND_BOTH
    }
  }

  // ---------- Armor sets ----------

  /** One armor per part, and the jewels in each part. */
  datatype ArmorSet = ArmorSet(ids: seq<int>, jewels: seq<seq<int>>)
  {
    predicate Valid(data: Data) {
      && |ids| == |jewels| == PART_NUM
      && (forall p :: 0 <= p < PART_NUM ==> data.IsArmor(ids[p]))
      && (forall p :: 0 <= p < PART_NUM ==> data.AreJewels(jewels[p]))
    }
  }
}
