/** From a plan for an armor set to a finished set: nothing is lost in the placement, and no part is overfilled. */
module Placements {
  import opened Packing
  import opened Datasets
  import opened Keys
  import opened SetTotals
  import opened Stats
  import opened JewelAssigners

  // ---------- Order does not matter ----------

  lemma {:induction false} SameJewels(data: Data, a: seq<int>, b: seq<int>, size: int, skill: int)
    requires data.AreJewels(a) && data.AreJewels(b) && multiset(a) == multiset(b)
    ensures SizeCount(data, a, size) == SizeCount(data, b, size)
    ensures SkillPoints(data, a, skill) == SkillPoints(data, b, skill)
  {
    hide PointsOf, SizeCount, SkillPoints;
    if a == [] {
      SameEmpty(b);
    } else {
      FirstJewel(data, a, size, skill);
      var n := FindSame(a, b);
      JewelOut(data, b, n, size, skill);
      SameJewels(data, a[1..], b[..n] + b[n + 1..], size, skill);
    }
  }

  lemma SameEmpty(b: seq<int>)
    requires multiset([]) == multiset(b)
    ensures b == []
  {
    assert |multiset(b)| == |b|;
  }

  lemma FindSame(a: seq<int>, b: seq<int>) returns (n: nat)
    requires a != [] && multiset(a) == multiset(b)
    ensures n < |b| && b[n] == a[0] && multiset(a[1..]) == multiset(b[..n] + b[n + 1..])
  {
    assert a[0] in multiset(b);
    n :| 0 <= n < |b| && b[n] == a[0];
    assert b == b[..n] + ([b[n]] + b[n + 1..]);
    TakeFromBoth(a, b[..n], b[n], b[n + 1..]);
  }

  lemma JewelOut(data: Data, b: seq<int>, n: nat, size: int, skill: int)
    requires data.AreJewels(b) && n < |b|
    ensures data.AreJewels(b[..n] + b[n + 1..])
    ensures SizeCount(data, b, size)
         == (if data.jewels[b[n]].slots == size then 1 else 0) + SizeCount(data, b[..n] + b[n + 1..], size)
    ensures SkillPoints(data, b, skill)
         == PointsOf(data.jewels[b[n]].effects, skill) + SkillPoints(data, b[..n] + b[n + 1..], skill)
  {
    hide PointsOf, SizeCount, SkillPoints;
    assert b == b[..n] + ([b[n]] + b[n + 1..]);
    TakenOut(data, b[..n], b[n], b[n + 1..], size, skill);
  }

  lemma FirstJewel(data: Data, ids: seq<int>, size: int, skill: int)
    requires data.AreJewels(ids) && ids != []
    ensures SizeCount(data, ids, size) == (if data.jewels[ids[0]].slots == size then 1 else 0) + SizeCount(data, ids[1..], size)
    ensures SkillPoints(data, ids, skill) == PointsOf(data.jewels[ids[0]].effects, skill) + SkillPoints(data, ids[1..], skill)
  {
  }

  lemma TakeFromBoth(a: seq<int>, front: seq<int>, id: int, back: seq<int>)
    requires a != [] && a[0] == id && multiset(a) == multiset(front + ([id] + back))
    ensures multiset(a[1..]) == multiset(front + back)
  {
    assert a == [id] + a[1..];
    assert multiset(a) == multiset{id} + multiset(a[1..]);
    assert multiset(front + ([id] + back)) == multiset{id} + multiset(front + back);
    assert multiset(a[1..]) == multiset(a) - multiset{id};
  }

  lemma TakenOut(data: Data, front: seq<int>, id: int, back: seq<int>, size: int, skill: int)
    requires data.AreJewels(front) && data.IsJewel(id) && data.AreJewels(back)
    ensures data.AreJewels(front + ([id] + back)) && data.AreJewels(front + back)
    ensures SizeCount(data, front + ([id] + back), size)
         == (if data.jewels[id].slots == size then 1 else 0) + SizeCount(data, front + back, size)
    ensures SkillPoints(data, front + ([id] + back), skill)
         == PointsOf(data.jewels[id].effects, skill) + SkillPoints(data, front + back, skill)
  {
    hide PointsOf;
    assert ([id] + back)[1..] == back;
    SizesConcat(data, front, [id] + back, size);
    SizesConcat(data, front, back, size);
    PointsConcat(data, front, [id] + back, skill);
    PointsConcat(data, front, back, skill);
  }

  function Reversed(t: seq<int>): (r: seq<int>)
    ensures |r| == |t| && forall i :: 0 <= i < |t| ==> r[i] == t[|t| - 1 - i]
  {
    if t == [] then [] else Reversed(t[1..]) + [t[0]]
  }

  lemma {:induction false} PartsWithAppend(data: Data, t: seq<int>, id: int, size: int)
    requires AreArmors(data, t) && data.IsArmor(id)
    ensures PartsWith(data, t + [id], size) == PartsWith(data, t, size) + if data.armors[id].slots == size then 1 else 0
  {
    if t == [] {
      assert (t + [id])[1..] == [];
    } else {
      assert (t + [id])[1..] == t[1..] + [id];
      PartsWithAppend(data, t[1..], id, size);
    }
  }

  lemma {:induction false} SameArmors(data: Data, t: seq<int>, size: int)
    requires AreArmors(data, t)
    ensures AreArmors(data, Reversed(t))
    ensures TorsoUps(data, Reversed(t)) == TorsoUps(data, t)
    ensures PartsWith(data, Reversed(t), size) == PartsWith(data, t, size)
    ensures Defense(data, Reversed(t)) == Defense(data, t)
  {
    if t != [] {
      SameArmors(data, t[1..], size);
      TorsoUpsAppend(data, Reversed(t[1..]), t[0]);
      PartsWithAppend(data, Reversed(t[1..]), t[0], size);
      DefenseAppend(data, Reversed(t[1..]), t[0]);
    }
  }

  /** The parts of a finished set are those of the armors, in the opposite order. */
  lemma SetArmors(data: Data, t: seq<int>)
    requires IsWhole(data, t)
    ensures AreArmors(data, Reversed(t))
  {
    SameArmors(data, t, 0);
  }

  // ---------- Finished sets ----------

  /** No part holds more jewel slots than its armor has. */
  ghost predicate NoPartOverfilled(data: Data, armors: ArmorSet)
    requires armors.Valid(data)
  {
    forall p :: 0 <= p < PART_NUM ==> Taken(data, armors.jewels[p]) <= data.armors[armors.ids[p]].slots
  }

  /** The jewels of the parts below `n`. */
  function JewelsBelow(jewels: seq<seq<int>>, n: nat): seq<int>
    requires n <= |jewels|
  {
    if n == 0 then [] else JewelsBelow(jewels, n - 1) + jewels[n - 1]
  }

  lemma {:induction false} FlattenIsBelow(jewels: seq<seq<int>>, n: nat)
    requires n <= |jewels|
    ensures Flatten(jewels) == JewelsBelow(jewels, n) + Flatten(jewels[n..])
  {
    if n > 0 {
      FlattenIsBelow(jewels, n - 1);
      assert jewels[n - 1..][1..] == jewels[n..];
    } else {
      assert jewels[0..] == jewels;
    }
  }

  lemma {:induction false} BelowAreJewels(data: Data, jewels: seq<seq<int>>, n: nat)
    requires n <= |jewels| && forall p :: 0 <= p < |jewels| ==> data.AreJewels(jewels[p])
    ensures data.AreJewels(JewelsBelow(jewels, n))
  {
    if n > 0 {
      BelowAreJewels(data, jewels, n - 1);
    }
  }

  lemma StatOfNothing(data: Data, armors: ArmorSet, skill: int)
    requires armors.Valid(data)
    ensures StatPoints(data, armors, 0, skill) == 0
    ensures ArmorPoints(data, Reversed(armors.ids[..0]), skill) == 0
    ensures SkillPoints(data, JewelsBelow(armors.jewels, 0), skill) == 0
  {
  }

  lemma StatStep(data: Data, armors: ArmorSet, n: nat, skill: int)
    requires armors.Valid(data) && 0 < n <= BODY
    ensures StatPoints(data, armors, n, skill) == StatPoints(data, armors, n - 1, skill)
      + PointsOf(data.armors[armors.ids[n - 1]].effects, skill) + SkillPoints(data, armors.jewels[n - 1], skill)
  {
    hide PointsOf, SkillPoints;
    ScaledAdds(PartPoints(data, armors, n - 1, skill), 0, 1);
  }

  lemma ArmorPointsStep(data: Data, ids: seq<int>, skill: int)
    requires AreArmors(data, ids) && ids != []
    ensures var front, last := ids[..|ids| - 1], ids[|ids| - 1];
      && AreArmors(data, Reversed(ids)) && AreArmors(data, Reversed(front))
      && ArmorPoints(data, Reversed(ids), skill) == PointsOf(data.armors[last].effects, skill) + ArmorPoints(data, Reversed(front), skill)
  {
    hide PointsOf;
    assert Reversed(ids) == [ids[|ids| - 1]] + Reversed(ids[..|ids| - 1]);
  }

  /** The points of the parts below `n`, none of which is the body piece. */
  lemma {:induction false} StatBelow(data: Data, armors: ArmorSet, n: nat, skill: int)
    requires armors.Valid(data) && n <= BODY
    ensures data.AreJewels(JewelsBelow(armors.jewels, n)) && AreArmors(data, armors.ids[..n])
    ensures StatPoints(data, armors, n, skill)
         == ArmorPoints(data, Reversed(armors.ids[..n]), skill) + SkillPoints(data, JewelsBelow(armors.jewels, n), skill)
  {
    hide PointsOf, ArmorPoints, SkillPoints, StatPoints, Scaled, Reversed;
    BelowAreJewels(data, armors.jewels, n);
    if n == 0 {
      StatOfNothing(data, armors, skill);
    } else {
      StatBelow(data, armors, n - 1, skill);
      StatStep(data, armors, n, skill);
      PointsConcat(data, JewelsBelow(armors.jewels, n - 1), armors.jewels[n - 1], skill);
      ArmorPointsStep(data, armors.ids[..n], skill);
      assert armors.ids[..n][..n - 1] == armors.ids[..n - 1];
    }
  }

  lemma BodyStep(data: Data, armors: ArmorSet, skill: int)
    requires armors.Valid(data)
    ensures Stat(data, armors, skill) == StatPoints(data, armors, BODY, skill)
      + Scaled(PointsOf(data.armors[armors.ids[BODY]].effects, skill) + SkillPoints(data, armors.jewels[BODY], skill),
                        Multiplied(data, armors.ids))
  {
    hide PointsOf, SkillPoints, Scaled, Multiplied;
  }

  lemma SetEnds(t: seq<int>)
    requires |t| == PART_NUM
    ensures |Reversed(t)| == PART_NUM && Reversed(Reversed(t)[..BODY]) == t[1..] && Reversed(t)[BODY] == t[0]
  {
  }

  lemma SameMultiplied(data: Data, t: seq<int>)
    requires AreArmors(data, t)
    ensures AreArmors(data, Reversed(t)) && Multiplied(data, Reversed(t)) == Multiplied(data, t)
  {
    SameArmors(data, t, 0);
  }

  /** The points of a whole set: those of its armors, body first, and those of its jewels. */
  lemma StatOfSet(data: Data, t: seq<int>, armors: ArmorSet, skill: int)
    requires armors.Valid(data) && |t| == PART_NUM && AreArmors(data, t) && armors.ids == Reversed(t)
    ensures data.AreJewels(JewelsBelow(armors.jewels, BODY))
    ensures Stat(data, armors, skill)
         == SetPoints(data, t, skill) + SkillPoints(data, JewelsBelow(armors.jewels, BODY), skill)
            + Scaled(SkillPoints(data, armors.jewels[BODY], skill), Multiplied(data, t))
  {
    hide PointsOf, ArmorPoints, SkillPoints, TorsoUps, Scaled, StatPoints, JewelsBelow, Reversed, Multiplied;
    SameArmors(data, t, 0);
    StatBelow(data, armors, BODY, skill);
    BodyStep(data, armors, skill);
    SetEnds(t);
    SameMultiplied(data, t);
    ScaledAdds(PointsOf(data.armors[t[0]].effects, skill), SkillPoints(data, armors.jewels[BODY], skill), Multiplied(data, t));
  }

  // ---------- Loading the assigner ----------

  /** The lists of waiting jewels hold what the sizes of the jewels say. */
  lemma WaitingSizes(data: Data, jewels: BySize)
    requires data.Valid() && Loaded(data, jewels)
    ensures data.AreJewels(jewels[1] + jewels[2] + jewels[3])
    ensures SizesOf(data, jewels[1] + jewels[2] + jewels[3]) == Slots(|jewels[1]|, |jewels[2]|, |jewels[3]|)
  {
    hide SizeCount, Data.Valid;
    forall size | 1 <= size <= 3
      ensures SizeCount(data, jewels[1] + jewels[2] + jewels[3], size) == |jewels[size]|
    {
      assert data.AreJewels(jewels[1]) && data.AreJewels(jewels[2]) && data.AreJewels(jewels[3]);
      SizesConcat(data, jewels[1] + jewels[2], jewels[3], size);
      SizesConcat(data, jewels[1], jewels[2], size);
      SizesOfSame(data, jewels[1], 1, size);
      SizesOfSame(data, jewels[2], 2, size);
      SizesOfSame(data, jewels[3], 3, size);
    }
  }

  lemma {:induction false} SizedCount(data: Data, ids: seq<int>)
    requires data.AreJewels(ids) && forall n :: 0 <= n < |ids| ==> 1 <= data.jewels[ids[n]].slots <= 3
    ensures SizeCount(data, ids, 1) + SizeCount(data, ids, 2) + SizeCount(data, ids, 3) == |ids|
    ensures SizeCount(data, ids, 1) >= 0 && SizeCount(data, ids, 2) >= 0 && SizeCount(data, ids, 3) >= 0
    ensures Taken(data, ids) == SizesOf(data, ids).Weight()
  {
    if ids != [] {
      SizedCount(data, ids[1..]);
    }
  }
}
