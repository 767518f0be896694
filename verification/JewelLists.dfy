/** Parts of a list of jewels. */
module JewelLists {
  import opened Datasets
  import opened Keys

  /** The jewels of the list that are wanted. */
  function Kept(ids: seq<int>, wanted: set<int>): (kept: seq<int>)
    ensures forall n :: 0 <= n < |kept| ==> kept[n] in wanted && kept[n] in ids
  {
    if ids == [] then [] else (if ids[0] in wanted then [ids[0]] else []) + Kept(ids[1..], wanted)
  }

  lemma NoneWanted(wanted: set<int>)
    ensures Kept([], wanted) == []
  {
  }

  lemma KeptStep(data: Data, ids: seq<int>, wanted: set<int>, size: int, skill: int)
    requires data.AreJewels(ids) && ids != []
    ensures data.AreJewels(Kept(ids, wanted)) && data.AreJewels(Kept(ids[1..], wanted))
    ensures SizeCount(data, Kept(ids, wanted), size)
         == (if ids[0] in wanted && data.jewels[ids[0]].slots == size then 1 else 0) + SizeCount(data, Kept(ids[1..], wanted), size)
    ensures SkillPoints(data, Kept(ids, wanted), skill)
         == (if ids[0] in wanted then PointsOf(data.jewels[ids[0]].effects, skill) else 0)
            + SkillPoints(data, Kept(ids[1..], wanted), skill)
  {
    hide PointsOf;
    var rest := Kept(ids[1..], wanted);
    if ids[0] in wanted {
      assert Kept(ids, wanted) == [ids[0]] + rest;
      assert ([ids[0]] + rest)[1..] == rest;
    } else {
      assert Kept(ids, wanted) == rest;
    }
  }

  lemma {:induction false} KeptSizes(data: Data, ids: seq<int>, a: set<int>, b: set<int>, size: int)
    requires data.AreJewels(ids) && a !! b
    ensures data.AreJewels(Kept(ids, a)) && data.AreJewels(Kept(ids, b)) && data.AreJewels(Kept(ids, a + b))
    ensures SizeCount(data, Kept(ids, a + b), size) == SizeCount(data, Kept(ids, a), size) + SizeCount(data, Kept(ids, b), size)
    ensures 0 <= SizeCount(data, Kept(ids, a), size) <= SizeCount(data, ids, size)
    ensures 0 <= SizeCount(data, Kept(ids, a + b), size) <= SizeCount(data, ids, size)
  {
    hide Kept;
    if ids == [] {
      NoneWanted(a);
      NoneWanted(b);
      NoneWanted(a + b);
    } else {
      KeptStep(data, ids, a, size, 0);
      KeptStep(data, ids, b, size, 0);
      KeptStep(data, ids, a + b, size, 0);
      KeptSizes(data, ids[1..], a, b, size);
    }
  }

  lemma {:induction false} KeptPoints(data: Data, ids: seq<int>, a: set<int>, b: set<int>, skill: int)
    requires data.AreJewels(ids) && a !! b
    ensures data.AreJewels(Kept(ids, a)) && data.AreJewels(Kept(ids, b)) && data.AreJewels(Kept(ids, a + b))
    ensures SkillPoints(data, Kept(ids, a + b), skill) == SkillPoints(data, Kept(ids, a), skill) + SkillPoints(data, Kept(ids, b), skill)
  {
    hide PointsOf, Kept;
    if ids == [] {
      NoneWanted(a);
      NoneWanted(b);
      NoneWanted(a + b);
    } else {
      KeptStep(data, ids, a, 0, skill);
      KeptStep(data, ids, b, 0, skill);
      KeptStep(data, ids, a + b, 0, skill);
      KeptPoints(data, ids[1..], a, b, skill);
    }
  }

  /** Leaving out jewels that do not help costs no points. */
  lemma {:induction false} KeptMost(data: Data, ids: seq<int>, wanted: set<int>, skill: int)
    requires data.AreJewels(ids)
    requires forall id :: id in ids && id !in wanted ==> PointsOf(data.jewels[id].effects, skill) <= 0
    ensures data.AreJewels(Kept(ids, wanted)) && SkillPoints(data, Kept(ids, wanted), skill) >= SkillPoints(data, ids, skill)
  {
    hide PointsOf, Kept;
    if ids == [] {
      NoneWanted(wanted);
    } else {
      assert ids[0] in ids;
      KeptStep(data, ids, wanted, 0, skill);
      KeptMost(data, ids[1..], wanted, skill);
    }
  }

  lemma {:induction false} KeptNotNegative(data: Data, ids: seq<int>, wanted: set<int>, skill: int)
    requires data.AreJewels(ids)
    requires forall id :: id in ids && id in wanted ==> PointsOf(data.jewels[id].effects, skill) >= 0
    ensures data.AreJewels(Kept(ids, wanted)) && SkillPoints(data, Kept(ids, wanted), skill) >= 0
  {
    hide PointsOf, Kept;
    if ids == [] {
      NoneWanted(wanted);
    } else {
      assert ids[0] in ids;
      KeptStep(data, ids, wanted, 0, skill);
      KeptNotNegative(data, ids[1..], wanted, skill);
    }
  }
}
