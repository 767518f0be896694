/** Solutions without negative skills, and what it means that no jewel touches the skills that can turn negative. */
module CleanSolutions {
  import opened Signatures
  import opened Datasets
  import opened Keys
  import opened SetTotals
  import opened Stats
  import opened Verifiers
  import opened JewelSolvers
  import opened Placements
  import opened Candidates
  import opened PointBounds
  import opened RawSets
  import opened FinalSteps
  import opened Solutions

  /** The armors have a solution in which no negative skill is active. */
  ghost predicate CleanQualifies(data: Data, query: Query, ids: seq<int>) {
    exists jewels :: IsSolutionSet(data, query, ArmorSet(ids, jewels)) && !SomeNegative(data, ArmorSet(ids, jewels))
  }

  /** The skill has a negative system, and no points of it are asked for. */
  predicate CanTurn(data: Data, query: Query, skill: int) {
    && skill in data.skills && (exists n :: 0 <= n < |data.skills[skill]| && data.skills[skill][n] < 0)
    && forall e :: 0 <= e < |query.effects| ==> query.effects[e].id != skill
  }

  /** No jewel that may be used changes the points of a skill that can turn negative. */
  ghost predicate NoneTurns(data: Data, query: Query) {
    forall id, skill :: data.IsJewel(id) && query.jewelFilter.Validate(id) && CanTurn(data, query, skill) ==>
      PointsOf(data.jewels[id].effects, skill) == 0
  }

  /** The armors alone make a negative skill active. */
  ghost predicate ArmorsTurn(data: Data, query: Query, t: seq<int>)
    requires IsWholeArmors(data, t)
  {
    exists skill :: CanTurn(data, query, skill) && Activates(data, skill, SetPoints(data, t, skill))
  }

  /** The jewels may be used, and with them all effects are reached. */
  ghost predicate JewelsReach(data: Data, query: Query, armors: ArmorSet)
    requires armors.Valid(data)
  {
    && MeetsJewelList(data, query, armors)
    && forall e :: 0 <= e < |query.effects| ==> Stat(data, armors, query.effects[e].id) >= query.effects[e].points
  }

  lemma {:induction false} NoneScores(data: Data, query: Query, ids: seq<int>, skill: int)
    requires data.AreJewels(ids) && NoneTurns(data, query) && CanTurn(data, query, skill)
    requires forall n :: 0 <= n < |ids| ==> query.jewelFilter.Validate(ids[n])
    ensures SkillPoints(data, ids, skill) == 0
  {
    hide PointsOf, CanTurn;
    if ids != [] {
      NoneScores(data, query, ids[1..], skill);
    }
  }

  lemma {:induction false} NoneScoresBelow(data: Data, query: Query, armors: ArmorSet, n: nat, skill: int)
    requires armors.Valid(data) && n <= PART_NUM && NoneTurns(data, query) && CanTurn(data, query, skill)
    requires MeetsJewelList(data, query, armors)
    ensures data.AreJewels(JewelsBelow(armors.jewels, n)) && SkillPoints(data, JewelsBelow(armors.jewels, n), skill) == 0
  {
    hide SkillPoints, NoneTurns, CanTurn;
    if n == 0 {
      NoSkillPoints(data, skill);
    } else {
      NoneScoresBelow(data, query, armors, n - 1, skill);
      NoneScores(data, query, armors.jewels[n - 1], skill);
      PointsConcat(data, JewelsBelow(armors.jewels, n - 1), armors.jewels[n - 1], skill);
    }
  }

  /** The points of such a skill are those of the armors. */
  lemma TurnStat(data: Data, query: Query, t: seq<int>, armors: ArmorSet, skill: int)
    requires armors.Valid(data) && |t| == PART_NUM && IsWholeArmors(data, t) && armors.ids == Reversed(t)
    requires NoneTurns(data, query) && CanTurn(data, query, skill) && MeetsJewelList(data, query, armors)
    ensures Stat(data, armors, skill) == SetPoints(data, t, skill)
  {
    hide SkillPoints, NoneTurns, CanTurn, SetPoints, Stat, JewelsBelow, Multiplied, Reversed;
    StatOfSet(data, t, armors, skill);
    NoneScoresBelow(data, query, armors, BODY, skill);
    NoneScores(data, query, armors.jewels[BODY], skill);
    ScaledAdds(0, 0, Multiplied(data, t));
  }

  /** Whether a negative skill is active then depends on the armors alone. */
  lemma NegativeIffArmors(data: Data, query: Query, t: seq<int>, armors: ArmorSet)
    requires query.Valid() && NoneTurns(data, query) && |t| == PART_NUM && IsWholeArmors(data, t)
    requires armors.Valid(data) && armors.ids == Reversed(t) && JewelsReach(data, query, armors)
    ensures SomeNegative(data, armors) <==> ArmorsTurn(data, query, t)
  {
    hide NoneTurns, SetPoints, Stat, Reversed, DistinctIds, MeetsJewelList;
    forall skill
      ensures Activates(data, skill, Stat(data, armors, skill))
         <==> CanTurn(data, query, skill) && Activates(data, skill, SetPoints(data, t, skill))
    {
      if CanTurn(data, query, skill) {
        TurnStat(data, query, t, armors, skill);
      }
    }
  }

  /** A key that is rejected stands for jewels that suffice, so the armors alone make a negative skill active. */
  lemma RejectedTurns(data: Data, query: Query, t: seq<int>, jewelKey: Signature)
    requires Ready(data, query) && |query.effects| <= EFFECTS && NoOverflow(data, query) && NoneTurns(data, query)
    requires Completes(data, query, t, jewelKey) && KeyRejected(data, query, t, jewelKey)
    ensures IsWholeArmors(data, t) && ArmorsTurn(data, query, t)
  {
    hide NoOverflow, NoneTurns, Completes, TableOf, Solves, IsPlacement, NoPartOverfilled, SomeNegative, SetPoints, Stat, Reversed, JewelsFit,
      Data.Valid, JewelPoints, Multiplied, ArmorsTurn, MeetsJewelList;
    var table, ids, bodyIds, jewels :| RejectedBy(table, data, query, t, jewelKey, ids, bodyIds, jewels);
    var armors := ArmorSet(Reversed(t), jewels);
    CompletesAllowed(data, query, t, jewelKey);
    SolutionFits(table, data, query, t, jewelKey, ids, bodyIds);
    JewelsMeet(data, query, t, armors, ids, bodyIds);
    forall e | 0 <= e < |query.effects|
      ensures Stat(data, armors, query.effects[e].id) >= query.effects[e].points
    {
      PlacedPoints(data, query, t, armors, ids, bodyIds, query.effects[e].id);
    }
    NegativeIffArmors(data, query, t, armors);
  }

  lemma SolutionSuffices(data: Data, query: Query, armors: ArmorSet)
    requires IsSolutionSet(data, query, armors)
    ensures armors.Valid(data) && JewelsReach(data, query, armors)
  {
    hide Stat;
    forall p, n | 0 <= p < PART_NUM && 0 <= n < |armors.jewels[p]|
      ensures armors.jewels[p][n] !in query.jewelFilter.blacklist
    {
      assert AllAllowedJewels(data, query, armors.jewels[p]);
      assert IsAllowedJewel(data, query, armors.jewels[p][n]);
    }
  }

  /** No solution of such armors is free of negative skills. */
  lemma TurnedNotClean(data: Data, query: Query, t: seq<int>)
    requires query.Valid() && NoneTurns(data, query) && |t| == PART_NUM && IsWholeArmors(data, t) && ArmorsTurn(data, query, t)
    ensures !CleanQualifies(data, query, Reversed(t))
  {
    hide NoneTurns, SomeNegative, Reversed, ArmorsTurn, JewelsReach, Stat, NoPartOverfilled;
    if CleanQualifies(data, query, Reversed(t)) {
      var jewels :| IsSolutionSet(data, query, ArmorSet(Reversed(t), jewels)) && !SomeNegative(data, ArmorSet(Reversed(t), jewels));
      SolutionSuffices(data, query, ArmorSet(Reversed(t), jewels));
      NegativeIffArmors(data, query, t, ArmorSet(Reversed(t), jewels));
      assert false;
    }
  }

  /** The armors of a result have a solution free of negative skills. */
  lemma ResultClean(data: Data, query: Query, armors: ArmorSet)
    requires query.avoidNegative && IsResult(data, query, armors) && IsSolutionSet(data, query, armors)
    ensures CleanQualifies(data, query, armors.ids)
  {
    hide SomeNegative, Stat, Occurs, MeetsWeaponType, MeetsGender, MeetsArmorLists, MeetsRare, MeetsJewelList, NoPartOverfilled, IsSolutionSet;
    assert armors == ArmorSet(armors.ids, armors.jewels);
  }
}
