/** What a finished armor set is worth: the semantics that search results are judged by. */
module Stats {
  import opened Datasets
  import opened Keys
  import opened SetTotals

  /** All points of part `p`, counted once: the armor's own and those of the jewels in it. */
  function PartPoints(data: Data, armors: ArmorSet, p: nat, skill: int): int
    requires armors.Valid(data) && p < PART_NUM
  {
    PointsOf(data.armors[armors.ids[p]].effects, skill) + SkillPoints(data, armors.jewels[p], skill)
  }

  function PartFactor(data: Data, armors: ArmorSet, p: nat): int
    requires armors.Valid(data)
  {
    if p == BODY then Multiplied(data, armors.ids) else 1
  }

  /** The points of the first `n` parts; the body piece and its jewels count once more for every torso-up piece. */
  function StatPoints(data: Data, armors: ArmorSet, n: nat, skill: int): int
    requires armors.Valid(data) && n <= PART_NUM
  {
    if n == 0 then 0
    else StatPoints(data, armors, n - 1, skill)
         + Scaled(PartPoints(data, armors, n - 1, skill), PartFactor(data, armors, n - 1))
  }

  function Stat(data: Data, armors: ArmorSet, skill: int): int
    requires armors.Valid(data)
  {
    StatPoints(data, armors, PART_NUM, skill)
  }

  function Defense(data: Data, ids: seq<int>): int
    requires AreArmors(data, ids)
  {
    if ids == [] then 0 else data.armors[ids[0]].maxDefense + Defense(data, ids[1..])
  }

  /** The points reach a negative skill of the system. */
  predicate Activates(data: Data, skill: int, points: int) {
    && points < 0 && skill in data.skills
    && exists n :: 0 <= n < |data.skills[skill]| && data.skills[skill][n] < 0 && points <= data.skills[skill][n]
  }

  predicate ListsSkill(effects: seq<Effect>, skill: int) {
    exists e :: 0 <= e < |effects| && effects[e].id == skill
  }

  predicate JewelsList(data: Data, ids: seq<int>, skill: int)
    requires data.AreJewels(ids)
  {
    exists n :: 0 <= n < |ids| && ListsSkill(data.jewels[ids[n]].effects, skill)
  }

  /** An armor or a jewel of the first `n` parts lists the skill. */
  predicate Occurs(data: Data, armors: ArmorSet, n: nat, skill: int)
    requires armors.Valid(data) && n <= PART_NUM
  {
    exists p :: 0 <= p < n && PartLists(data, armors, p, skill)
  }

  predicate PartLists(data: Data, armors: ArmorSet, p: nat, skill: int)
    requires armors.Valid(data) && p < PART_NUM
  {
    ListsSkill(data.armors[armors.ids[p]].effects, skill) || JewelsList(data, armors.jewels[p], skill)
  }

  lemma OccursMore(data: Data, armors: ArmorSet, n: nat, skill: int)
    requires armors.Valid(data) && n < PART_NUM
    ensures Occurs(data, armors, n + 1, skill) <==>
            || Occurs(data, armors, n, skill) || ListsSkill(data.armors[armors.ids[n]].effects, skill)
            || JewelsList(data, armors.jewels[n], skill)
  {
    hide ListsSkill, JewelsList;
    if PartLists(data, armors, n, skill) {
      assert Occurs(data, armors, n + 1, skill);
    }
  }

  /** A skill that nothing lists has no points. */
  lemma {:induction false} NothingListed(data: Data, armors: ArmorSet, n: nat, skill: int)
    requires armors.Valid(data) && n <= PART_NUM && !Occurs(data, armors, n, skill)
    ensures StatPoints(data, armors, n, skill) == 0
  {
    hide PointsOf, SkillPoints, ListsSkill, JewelsList;
    if n > 0 {
      assert !PartLists(data, armors, n - 1, skill);
      NothingListed(data, armors, n - 1, skill);
      NoEffectPoints(data.armors[armors.ids[n - 1]].effects, skill);
      NoJewelLists(data, armors.jewels[n - 1], skill);
    }
  }

  lemma {:induction false} NoEffectPoints(effects: seq<Effect>, skill: int)
    requires !ListsSkill(effects, skill)
    ensures PointsOf(effects, skill) == 0
  {
    if effects != [] {
      assert forall e :: 0 <= e < |effects[1..]| ==> effects[1..][e] == effects[e + 1];
      NoEffectPoints(effects[1..], skill);
    }
  }

  lemma {:induction false} NoJewelLists(data: Data, ids: seq<int>, skill: int)
    requires data.AreJewels(ids) && !JewelsList(data, ids, skill)
    ensures SkillPoints(data, ids, skill) == 0
  {
    hide PointsOf, ListsSkill;
    if ids != [] {
      assert !ListsSkill(data.jewels[ids[0]].effects, skill);
      assert forall n :: 0 <= n < |ids[1..]| ==> ids[1..][n] == ids[n + 1];
      NoJewelLists(data, ids[1..], skill);
      NoEffectPoints(data.jewels[ids[0]].effects, skill);
    }
  }

  // ---------- The loops ----------

  lemma {:induction false} TorsoUpsAppend(data: Data, t: seq<int>, id: int)
    requires AreArmors(data, t) && data.IsArmor(id)
    ensures TorsoUps(data, t + [id]) == TorsoUps(data, t) + if data.armors[id].IsTorsoUp() then 1 else 0
  {
    if t == [] {
      assert (t + [id])[1..] == [];
    } else {
      assert (t + [id])[1..] == t[1..] + [id];
      TorsoUpsAppend(data, t[1..], id);
    }
  }

  /** The positions of the pieces whose only effect has id zero. */
  function TorsoParts(data: Data, t: seq<int>): set<int>
    requires AreArmors(data, t)
  {
    set p | 0 <= p < |t| && |data.armors[t[p]].effects| == 1 && data.armors[t[p]].effects[0].id == 0
  }

  lemma TorsoPartsAppend(data: Data, t: seq<int>, id: int)
    requires AreArmors(data, t) && data.IsArmor(id)
    ensures TorsoParts(data, t + [id])
         == TorsoParts(data, t) + if |data.armors[id].effects| == 1 && data.armors[id].effects[0].id == 0 then {|t|} else {}
  {
    assert forall p :: 0 <= p < |t| ==> (t + [id])[p] == t[p];
  }

  lemma {:induction false} TorsoUpCount(data: Data, t: seq<int>)
    requires AreArmors(data, t)
    ensures TorsoUps(data, t) == |TorsoParts(data, t)|
  {
    if t == [] {
      assert TorsoParts(data, t) == {};
    } else {
      var n := |t| - 1;
      TorsoUpCount(data, t[..n]);
      assert t == t[..n] + [t[n]];
      TorsoUpsAppend(data, t[..n], t[n]);
      TorsoPartsAppend(data, t[..n], t[n]);
      assert n !in TorsoParts(data, t[..n]);
      hide TorsoParts, TorsoUps;
    }
  }

  method GetMultiplier(data: Data, armors: ArmorSet) returns (multiplier: int)
    requires armors.Valid(data)
    ensures multiplier == Multiplied(data, armors.ids)
    ensures multiplier == 1 + |set p | 0 <= p < 7 && |data.armors[armors.ids[p]].effects| == 1
                                       && data.armors[armors.ids[p]].effects[0].id == 0|
  {
    multiplier := 1;
    TorsoUpCount(data, armors.ids);
    for i := 0 to PART_NUM
      invariant multiplier == 1 + TorsoUps(data, armors.ids[..i])
    {
      TorsoUpsAppend(data, armors.ids[..i], armors.ids[i]);
      assert armors.ids[..i + 1] == armors.ids[..i] + [armors.ids[i]];
      if data.armors[armors.ids[i]].IsTorsoUp() {
        multiplier := multiplier + 1;
      }
    }
    assert armors.ids[..PART_NUM] == armors.ids;
  }

  lemma {:induction false} DefenseAppend(data: Data, ids: seq<int>, id: int)
    requires AreArmors(data, ids) && data.IsArmor(id)
    ensures Defense(data, ids + [id]) == Defense(data, ids) + data.armors[id].maxDefense
  {
    if ids == [] {
      assert (ids + [id])[1..] == [];
    } else {
      assert (ids + [id])[1..] == ids[1..] + [id];
      DefenseAppend(data, ids[1..], id);
    }
  }

  lemma DefenseOfSeven(data: Data, ids: seq<int>)
    requires AreArmors(data, ids) && |ids| == 7
    ensures Defense(data, ids) ==
            data.armors[ids[0]].maxDefense + data.armors[ids[1]].maxDefense + data.armors[ids[2]].maxDefense
            + data.armors[ids[3]].maxDefense + data.armors[ids[4]].maxDefense + data.armors[ids[5]].maxDefense
            + data.armors[ids[6]].maxDefense
  {
    hide Defense;
    assert Defense(data, []) == 0 by { NoDefense(data); }
    FirstDefense(data, ids);
    FirstDefense(data, ids[1..]);
    FirstDefense(data, ids[2..]);
    FirstDefense(data, ids[3..]);
    FirstDefense(data, ids[4..]);
    FirstDefense(data, ids[5..]);
    FirstDefense(data, ids[6..]);
    assert ids[1..][1..] == ids[2..] && ids[2..][1..] == ids[3..] && ids[3..][1..] == ids[4..] && ids[4..][1..] == ids[5..];
    assert ids[5..][1..] == ids[6..] && ids[6..][1..] == [];
  }

  lemma NoDefense(data: Data)
    ensures Defense(data, []) == 0
  {
  }

  lemma FirstDefense(data: Data, ids: seq<int>)
    requires AreArmors(data, ids) && ids != []
    ensures Defense(data, ids) == data.armors[ids[0]].maxDefense + Defense(data, ids[1..])
  {
  }

  method SumDefense(data: Data, ids: seq<int>) returns (defense: int)
    requires AreArmors(data, ids)
    ensures defense == Defense(data, ids)
  {
    defense := 0;
    for i := 0 to |ids|
      invariant defense == Defense(data, ids[..i])
    {
      DefenseAppend(data, ids[..i], ids[i]);
      assert ids[..i + 1] == ids[..i] + [ids[i]];
      defense := defense + data.armors[ids[i]].maxDefense;
    }
    assert ids[..|ids|] == ids;
  }

  method GetTotalDefense(data: Data, armors: ArmorSet) returns (defense: int)
    requires armors.Valid(data)
    ensures defense == Defense(data, armors.ids)
    ensures defense ==
            data.armors[armors.ids[0]].maxDefense + data.armors[armors.ids[1]].maxDefense + data.armors[armors.ids[2]].maxDefense
            + data.armors[armors.ids[3]].maxDefense + data.armors[armors.ids[4]].maxDefense + data.armors[armors.ids[5]].maxDefense
            + data.armors[armors.ids[6]].maxDefense
  {
    defense := SumDefense(data, armors.ids);
    DefenseOfSeven(data, armors.ids);
  }

  function At(stats: map<int, int>, skill: int): int {
    if skill in stats then stats[skill] else 0
  }

  /** Adds the points of a list of effects, times a factor. */
  method AddEffects(stats: map<int, int>, effects: seq<Effect>, factor: int) returns (sum: map<int, int>)
    ensures forall skill :: At(sum, skill) == At(stats, skill) + Scaled(PointsOf(effects, skill), factor)
    ensures forall skill :: skill in sum <==> skill in stats || ListsSkill(effects, skill)
  {
    sum := stats;
    for e := 0 to |effects|
      invariant forall skill :: At(sum, skill) == At(stats, skill) + Scaled(PointsOf(effects[..e], skill), factor)
      invariant forall skill :: skill in sum <==> skill in stats || ListsSkill(effects[..e], skill)
    {
      ghost var before := sum;
      var points := effects[e].points * factor;
      if effects[e].id in sum {
        sum := sum[effects[e].id := sum[effects[e].id] + points];
      } else {
        sum := sum[effects[e].id := points];
      }
      forall skill
        ensures At(sum, skill) == At(stats, skill) + Scaled(PointsOf(effects[..e + 1], skill), factor)
      {
        assert effects[..e + 1] == effects[..e] + [effects[e]];
        PointsAppend(effects[..e], effects[e], skill);
        ScaledAdds(PointsOf(effects[..e], skill), if effects[e].id == skill then effects[e].points else 0, factor);
      }
    }
    assert effects[..|effects|] == effects;
  }

  lemma {:induction false} PointsAppend(effects: seq<Effect>, effect: Effect, skill: int)
    ensures PointsOf(effects + [effect], skill) == PointsOf(effects, skill) + if effect.id == skill then effect.points else 0
  {
    if effects == [] {
      assert (effects + [effect])[1..] == [];
    } else {
      assert (effects + [effect])[1..] == effects[1..] + [effect];
      PointsAppend(effects[1..], effect, skill);
    }
  }

  /** Adds the points of a list of jewels, times a factor. */
  method AddJewels(data: Data, stats: map<int, int>, ids: seq<int>, factor: int) returns (sum: map<int, int>)
    requires data.AreJewels(ids)
    ensures forall skill :: At(sum, skill) == At(stats, skill) + Scaled(SkillPoints(data, ids, skill), factor)
    ensures forall skill :: skill in sum <==> skill in stats || JewelsList(data, ids, skill)
  {
    hide PointsOf, Scaled, At;
    sum := stats;
    NoJewelPoints(data, factor);
    assert ids[..0] == [];
    for n := 0 to |ids|
      invariant forall skill :: At(sum, skill) == At(stats, skill) + Scaled(SkillPoints(data, ids[..n], skill), factor)
      invariant forall skill :: skill in sum <==> skill in stats || JewelsList(data, ids[..n], skill)
    {
      var effects := data.jewels[ids[n]].effects;
      sum := AddEffects(sum, effects, factor);
      forall skill
        ensures Scaled(SkillPoints(data, ids[..n + 1], skill), factor)
             == Scaled(SkillPoints(data, ids[..n], skill), factor) + Scaled(PointsOf(effects, skill), factor)
      {
        assert ids[..n + 1] == ids[..n] + [ids[n]];
        PointsConcat(data, ids[..n], [ids[n]], skill);
        assert SkillPoints(data, [ids[n]], skill) == PointsOf(effects, skill) by { OneJewel(data, ids[n], skill); }
        ScaledAdds(SkillPoints(data, ids[..n], skill), PointsOf(effects, skill), factor);
      }
    }
    assert ids[..|ids|] == ids;
  }

  lemma NoJewelPoints(data: Data, factor: int)
    ensures forall skill :: Scaled(SkillPoints(data, [], skill), factor) == 0
  {
  }

  lemma OneJewel(data: Data, id: int, skill: int)
    requires data.IsJewel(id)
    ensures SkillPoints(data, [id], skill) == PointsOf(data.jewels[id].effects, skill)
  {
    assert [id][1..] == [];
  }

  method GetSkillStats(data: Data, armors: ArmorSet) returns (stats: map<int, int>)
    requires armors.Valid(data)
    ensures forall skill :: At(stats, skill) == Stat(data, armors, skill)
    ensures forall skill :: skill in stats <==> Occurs(data, armors, PART_NUM, skill)
  {
    hide PointsOf, SkillPoints, Scaled, At, Multiplied, ListsSkill, JewelsList;
    stats := map[];
    NothingRecorded(data, armors);
    var multiplier := GetMultiplier(data, armors);
    for i := 0 to PART_NUM
      invariant forall skill :: At(stats, skill) == StatPoints(data, armors, i, skill)
      invariant forall skill :: skill in stats <==> Occurs(data, armors, i, skill)
    {
      var factor := if BODY == i then multiplier else 1;
      stats := AddEffects(stats, data.armors[armors.ids[i]].effects, factor);
      stats := AddJewels(data, stats, armors.jewels[i], factor);
      forall skill
        ensures skill in stats <==> Occurs(data, armors, i + 1, skill)
      {
        OccursMore(data, armors, i, skill);
      }
      forall skill
        ensures Scaled(PartPoints(data, armors, i, skill), factor)
             == Scaled(PointsOf(data.armors[armors.ids[i]].effects, skill), factor)
                + Scaled(SkillPoints(data, armors.jewels[i], skill), factor)
      {
        ScaledAdds(PointsOf(data.armors[armors.ids[i]].effects, skill), SkillPoints(data, armors.jewels[i], skill), factor);
      }
    }
  }

  /** The parts below the body count once, the body piece and its jewels once and once more for every torso-up piece. */
  lemma StatSum(data: Data, armors: ArmorSet, skill: int)
    requires armors.Valid(data)
    ensures Stat(data, armors, skill) ==
            PartPoints(data, armors, 0, skill) + PartPoints(data, armors, 1, skill) + PartPoints(data, armors, 2, skill)
            + PartPoints(data, armors, 3, skill) + PartPoints(data, armors, 4, skill) + PartPoints(data, armors, 5, skill)
            + (1 + |TorsoParts(data, armors.ids)|) * PartPoints(data, armors, 6, skill)
  {
    hide PartPoints, StatPoints, TorsoParts, TorsoUps;
    NoPartsPoints(data, armors, skill);
    NextPartPoints(data, armors, 0, skill);
    NextPartPoints(data, armors, 1, skill);
    NextPartPoints(data, armors, 2, skill);
    NextPartPoints(data, armors, 3, skill);
    NextPartPoints(data, armors, 4, skill);
    NextPartPoints(data, armors, 5, skill);
    NextPartPoints(data, armors, 6, skill);
    TorsoUpCount(data, armors.ids);
    assert Stat(data, armors, skill) == StatPoints(data, armors, 7, skill);
  }

  lemma NoPartsPoints(data: Data, armors: ArmorSet, skill: int)
    requires armors.Valid(data)
    ensures StatPoints(data, armors, 0, skill) == 0
  {
  }

  lemma NextPartPoints(data: Data, armors: ArmorSet, n: nat, skill: int)
    requires armors.Valid(data) && n < 7
    ensures StatPoints(data, armors, n + 1, skill) == StatPoints(data, armors, n, skill)
      + if n == 6 then Multiplied(data, armors.ids) * PartPoints(data, armors, n, skill) else PartPoints(data, armors, n, skill)
  {
    hide PartPoints, Multiplied;
  }

  /** The skills that some armor or some jewel of the set lists. */
  lemma OccursIff(data: Data, armors: ArmorSet, skill: int)
    requires armors.Valid(data)
    ensures Occurs(data, armors, PART_NUM, skill) <==>
      || (exists p, e :: 0 <= p < 7 && 0 <= e < |data.armors[armors.ids[p]].effects|
            && data.armors[armors.ids[p]].effects[e].id == skill)
      || (exists p, n, e :: 0 <= p < 7 && 0 <= n < |armors.jewels[p]| && 0 <= e < |data.jewels[armors.jewels[p][n]].effects|
            && data.jewels[armors.jewels[p][n]].effects[e].id == skill)
  {
    if Occurs(data, armors, PART_NUM, skill) {
      var p :| 0 <= p < PART_NUM && PartLists(data, armors, p, skill);
      if JewelsList(data, armors.jewels[p], skill) {
        var n :| 0 <= n < |armors.jewels[p]| && ListsSkill(data.jewels[armors.jewels[p][n]].effects, skill);
        var e :| 0 <= e < |data.jewels[armors.jewels[p][n]].effects| && data.jewels[armors.jewels[p][n]].effects[e].id == skill;
      }
    }
    if p, e :| 0 <= p < 7 && 0 <= e < |data.armors[armors.ids[p]].effects| && data.armors[armors.ids[p]].effects[e].id == skill {
      assert PartLists(data, armors, p, skill);
    }
    if p, n, e :| 0 <= p < 7 && 0 <= n < |armors.jewels[p]| && 0 <= e < |data.jewels[armors.jewels[p][n]].effects|
                  && data.jewels[armors.jewels[p][n]].effects[e].id == skill {
      assert ListsSkill(data.jewels[armors.jewels[p][n]].effects, skill);
      assert PartLists(data, armors, p, skill);
    }
  }

  lemma NothingRecorded(data: Data, armors: ArmorSet)
    requires armors.Valid(data)
    ensures forall skill :: At(map[], skill) == StatPoints(data, armors, 0, skill)
  {
  }

  /** Any threshold of the system may be the one that is reached. */
  lemma ActivatesIff(data: Data, skill: int, points: int)
    ensures Activates(data, skill, points) <==>
      skill in data.skills && exists x :: x in data.skills[skill] && x < 0 && points <= x
  {
    if Activates(data, skill, points) {
      var n :| 0 <= n < |data.skills[skill]| && data.skills[skill][n] < 0 && points <= data.skills[skill][n];
      assert data.skills[skill][n] in data.skills[skill];
    }
    if skill in data.skills && exists x :: x in data.skills[skill] && x < 0 && points <= x {
      var x :| x in data.skills[skill] && x < 0 && points <= x;
      var n :| 0 <= n < |data.skills[skill]| && data.skills[skill][n] == x;
    }
  }

  /** The order of the thresholds makes no difference. */
  lemma ThresholdOrder(data: Data, other: Data, skill: int, points: int)
    requires skill in data.skills && skill in other.skills && multiset(data.skills[skill]) == multiset(other.skills[skill])
    ensures Activates(data, skill, points) == Activates(other, skill, points)
  {
    hide Activates;
    ActivatesIff(data, skill, points);
    ActivatesIff(other, skill, points);
    forall x
      ensures x in data.skills[skill] <==> x in other.skills[skill]
    {
      assert x in data.skills[skill] <==> x in multiset(data.skills[skill]);
      assert x in other.skills[skill] <==> x in multiset(other.skills[skill]);
    }
  }

  method NegativeActivated(data: Data, skill: int, points: int) returns (active: bool)
    ensures active == Activates(data, skill, points)
    ensures active <==> skill in data.skills && exists x :: x in data.skills[skill] && x < 0 && points <= x
  {
    active := false;
    ActivatesIff(data, skill, points);
    if points < 0 && skill in data.skills {
      var system := data.skills[skill];
      for n := 0 to |system|
        invariant forall i :: 0 <= i < n ==> !(system[i] < 0 && points <= system[i])
      {
        if system[n] < 0 && points <= system[n] {
          return true;
        }
      }
    }
  }

  /** Some skill of the set is active in the negative. */
  ghost predicate SomeNegative(data: Data, armors: ArmorSet)
    requires armors.Valid(data)
  {
    exists skill :: Activates(data, skill, Stat(data, armors, skill))
  }

  /** The loop over the collected points that both the finalizer and the verifier run. */
  method AnyNegative(data: Data, armors: ArmorSet) returns (negative: bool)
    requires armors.Valid(data)
    ensures negative == SomeNegative(data, armors)
  {
    hide Stat, Activates, Occurs;
    var stats := GetSkillStats(data, armors);
    negative := false;
    var rest: set<int> := stats.Keys;
    while rest != {}
      invariant rest <= stats.Keys
      invariant forall skill :: skill in stats.Keys - rest ==> !Activates(data, skill, stats[skill])
    {
      var skill := Pick(rest);
      var active := NegativeActivated(data, skill, stats[skill]);
      if active {
        assert Activates(data, skill, At(stats, skill));
        return true;
      }
      rest := rest - {skill};
    }
    forall skill
      ensures !Activates(data, skill, Stat(data, armors, skill))
    {
      if skill in stats {
        assert At(stats, skill) == stats[skill];
      } else {
        NotActive(data, skill);
      }
    }
  }

  method Pick<T>(s: set<T>) returns (x: T)
    requires s != {}
    ensures x in s
  {
    x :| x in s;
  }

  lemma NotActive(data: Data, skill: int)
    ensures !Activates(data, skill, 0)
  {
  }
}
