/** What the tests of a stage refuse beyond what its effect asks for: negative points in later effects. */
module Refusals {
  import opened Signatures
  import opened Datasets
  import opened Keys
  import opened SetTotals
  import opened Candidates
  import opened Residuals
  import opened PointBounds
  import opened FinalSteps
  import opened Solutions
  import opened Reaching
  import opened Completeness
  import opened KeyPlans
  import opened InJewels

  // ---------- Bytes that must not be negative ----------

  /** In effects that the trees' keys do not cover yet, the jewels alone must not be negative, whatever the armors have there. */
  lemma LaterNotNegative(data: Data, query: Query, t: seq<int>, s: nat, jewelKey: Signature, e: nat)
    requires Ready(data, query) && 1 <= s <= |query.effects| <= EFFECTS && Reached(data, query, t, s, jewelKey)
    requires Covered(query, s) <= e < |query.effects|
    ensures GetPoints(jewelKey, e) >= 0
  {
    hide KeyFor, SetPoints, Data.Valid, Query.Valid, InverseKey, ReachedMore, FillAll, OthersHopeful, AsChar;
    StageTest(data, query, t, s);
    var key := KeyFor(data, query, t, s);
    SatisfiedEffect(Or(key, jewelKey), InverseKey(query.effects, s), e);
    UnseenByte(key, jewelKey, e);
  }

  lemma UnseenByte(key: Signature, jewelKey: Signature, e: nat)
    requires e < EFFECTS && GetPoints(key, e) == 0
    ensures GetPoints(Or(key, jewelKey), e) == GetPoints(jewelKey, e)
  {
    SmallChar(GetPoints(jewelKey, e));
  }

  // ---------- Jewels that all take points ----------

  lemma {:induction false} AllTake(data: Data, ids: seq<int>, skill: int)
    requires data.AreJewels(ids) && forall n :: 0 <= n < |ids| ==> PointsOf(data.jewels[ids[n]].effects, skill) < 0
    ensures SkillPoints(data, ids, skill) <= 0 && (ids != [] ==> SkillPoints(data, ids, skill) < 0)
  {
    hide PointsOf;
    if ids != [] {
      AllTake(data, ids[1..], skill);
    }
  }

  /** Jewels that all take points from one effect, and give points to another, leave the first negative. */
  lemma LoadTakes(data: Data, load: Load, multiplier: int, skill: int, other: int)
    requires load.AreJewels(data) && multiplier >= 1 && load.Points(data, multiplier, other) > 0
    requires forall n :: 0 <= n < |load.ids| ==> PointsOf(data.jewels[load.ids[n]].effects, skill) < 0
    requires forall n :: 0 <= n < |load.body| ==> PointsOf(data.jewels[load.body[n]].effects, skill) < 0
    ensures load.Points(data, multiplier, skill) < 0
  {
    hide PointsOf, SkillPoints, Scaled;
    AllTake(data, load.ids, skill);
    AllTake(data, load.body, skill);
    NoSkillPoints(data, other);
    ScaledAdds(0, 0, multiplier);
    var b := SkillPoints(data, load.body, skill);
    ScaledGrows(b, 0, multiplier);
    if load.body != [] {
      ScaledGrows(b, -1, multiplier);
      ScaledLess(multiplier);
    }
  }

  lemma ScaledLess(multiplier: int)
    requires multiplier >= 1
    ensures Scaled(-1, multiplier) < 0
  {
  }

  /** Every usable jewel that helps with effect `i` takes points from effect `e`. */
  ghost predicate HelpTakes(data: Data, query: Query, i: nat, e: nat)
    requires i < |query.effects| && e < |query.effects|
  {
    forall id :: Usable(data, query, id) && Gives(data, query, id, i) > 0 ==> Gives(data, query, id, e) < 0
  }

  /** When the armors lack points in the first effect, and the jewels for it take points from an effect after the second, the
      armors do not come through the first stage, whatever they have in that effect. */
  lemma TakersRefused(data: Data, query: Query, t: seq<int>, e: nat)
    requires Ready(data, query) && |query.effects| <= EFFECTS && NoOverflow(data, query) && IsWholeArmors(data, t)
    requires 2 <= e < |query.effects| && SetPoints(data, t, query.effects[0].id) < query.effects[0].points
    requires HelpTakes(data, query, 0, e)
    ensures !Alive(data, query, t, 1)
  {
    hide NoOverflow, Ready, Reached, Comes, SetPoints, Multiplied, AllFor, HelpTakes, Load.Points;
    if Alive(data, query, t, 1) {
      AliveComes(data, query, t, 1);
      var load: Load :| Comes(data, query, t, 1, load);
      FirstHas(data, query, t, load, e);
      ReadyData(data, query);
      LoadGives(data, query, load, 0, e);
      MultipliedPositive(data, t);
      LoadTakes(data, load, Multiplied(data, t), query.effects[e].id, query.effects[0].id);
      assert false;
    }
  }

  lemma ReadyData(data: Data, query: Query)
    requires Ready(data, query)
    ensures data.Valid()
  {
  }

  /** What jewels of the first stage have in the first effect, and in one that the keys do not cover. */
  lemma FirstHas(data: Data, query: Query, t: seq<int>, load: Load, e: nat)
    requires 2 <= e < |query.effects| <= EFFECTS && Comes(data, query, t, 1, load) && IsWholeArmors(data, t)
    ensures load.AreJewels(data) && AllFor(data, query, 0, load)
    ensures SetPoints(data, t, query.effects[0].id) + load.Points(data, Multiplied(data, t), query.effects[0].id) >= query.effects[0].points
    ensures load.Points(data, Multiplied(data, t), query.effects[e].id) >= 0
  {
    hide SetPoints, Multiplied, AllFor, Load.Points, JewelsFit, PointBounds.IsAllowed;
    assert Enough(data, query, t, Below(Covered(query, 1)), Below(1), load, 0);
    assert Enough(data, query, t, Below(Covered(query, 1)), Below(1), load, e);
  }

  lemma LoadGives(data: Data, query: Query, load: Load, i: nat, e: nat)
    requires data.Valid() && i < |query.effects| && e < |query.effects| && HelpTakes(data, query, i, e)
    requires AllFor(data, query, i, load) && load.AreJewels(data)
    ensures forall n :: 0 <= n < |load.ids| ==> PointsOf(data.jewels[load.ids[n]].effects, query.effects[e].id) < 0
    ensures forall n :: 0 <= n < |load.body| ==> PointsOf(data.jewels[load.body[n]].effects, query.effects[e].id) < 0
  {
    HelpersTake(data, query, load.ids, i, e);
    HelpersTake(data, query, load.body, i, e);
  }

  lemma HelpersTake(data: Data, query: Query, ids: seq<int>, i: nat, e: nat)
    requires data.Valid() && i < |query.effects| && e < |query.effects| && HelpTakes(data, query, i, e)
    requires AllHelp(data, query, [query.effects[i].id], ids) && data.AreJewels(ids)
    ensures forall n :: 0 <= n < |ids| ==> PointsOf(data.jewels[ids[n]].effects, query.effects[e].id) < 0
  {
    hide PointsOf, JewelValid, Data.Valid, Usable;
    forall n | 0 <= n < |ids|
      ensures PointsOf(data.jewels[ids[n]].effects, query.effects[e].id) < 0
    {
      ListedPositive(data, query, ids[n], i);
      assert Gives(data, query, ids[n], i) > 0 && Gives(data, query, ids[n], e) < 0;
    }
  }

  lemma ListedPositive(data: Data, query: Query, id: int, i: nat)
    requires data.Valid() && data.IsJewel(id) && i < |query.effects| && JewelValid(data.jewels[id], [query.effects[i].id])
    ensures Gives(data, query, id, i) > 0
  {
    hide PointsOf;
    var effects, skill := data.jewels[id].effects, query.effects[i].id;
    PointsOfDistinct(effects, skill);
    var s, n :| 0 <= s < 1 && 0 <= n < |effects| && [skill][s] == effects[n].id && effects[n].points > 0;
    assert effects[n].id == skill;
  }

  // ---------- The prefilter ----------

  /** No armor set alone has enough points in effect `i`. */
  ghost predicate ArmorsLack(data: Data, query: Query, i: nat)
    requires i < |query.effects|
  {
    forall u :: IsAllowed(data, query, u) ==> Lacks(data, query, u, i)
  }

  predicate Lacks(data: Data, query: Query, u: seq<int>, i: nat)
    requires i < |query.effects|
  {
    AreArmors(data, u) && u != [] && SetPoints(data, u, query.effects[i].id) < query.effects[i].points
  }

  /** Every usable jewel takes points from the effect. */
  ghost predicate UsableTake(data: Data, query: Query, e: nat)
    requires e < |query.effects|
  {
    forall id :: Usable(data, query, id) ==> Gives(data, query, id, e) < 0
  }

  /** When effect `i` needs jewels, and all jewels take points from another effect that is still to come, the prefilter refuses the
      armors, whatever they have in that effect. */
  lemma BetweenRefused(data: Data, query: Query, t: seq<int>, s: nat, i: nat, e: nat)
    requires Ready(data, query) && |query.effects| <= EFFECTS && NoOverflow(data, query)
    requires 2 <= s < i < |query.effects| && s <= e < |query.effects| && e != i
    requires ArmorsLack(data, query, i) && UsableTake(data, query, e)
    ensures !Alive(data, query, t, s + 1)
  {
    hide NoOverflow, Ready, Alive, Comes, UsableTake, PointBounds.IsAllowed, SomeComes, SetPoints, Load.Points, Multiplied;
    if Alive(data, query, t, s + 1) {
      AliveComes(data, query, t, s + 1);
      var u, load := LikelyLoad(data, query, t, s, i, e);
      assert Lacks(data, query, u, i);
      UsersTake(data, query, load.ids, e);
      UsersTake(data, query, load.body, e);
      MultipliedPositive(data, u);
      LoadTakes(data, load, Multiplied(data, u), query.effects[e].id, query.effects[i].id);
      assert false;
    }
  }

  /** The set alike, and the jewels, with which effect `i` would be reached. */
  lemma LikelyLoad(data: Data, query: Query, t: seq<int>, s: nat, i: nat, e: nat) returns (u: seq<int>, load: Load)
    requires Ready(data, query) && |query.effects| <= EFFECTS && NoOverflow(data, query)
    requires 2 <= s < i < |query.effects| && s <= e < |query.effects| && e != i && SomeComes(data, query, t, s + 1)
    ensures IsAllowed(data, query, u) && IsWholeArmors(data, u) && load.AreJewels(data)
    ensures AllUsable(data, query, load.ids) && AllUsable(data, query, load.body)
    ensures SetPoints(data, u, query.effects[i].id) + load.Points(data, Multiplied(data, u), query.effects[i].id) >= query.effects[i].points
    ensures load.Points(data, Multiplied(data, u), query.effects[e].id) >= 0
  {
    hide NoOverflow, Ready, SetPoints, Multiplied, Load.Points, PointBounds.IsAllowed, ComesWith, Likely, Alike, AllEnough, AllUsable;
    var comes: Load :| Comes(data, query, t, s + 1, comes);
    assert AllLikely(data, query, t, s);
    u, load := LikelyOf(data, query, t, s, i);
    var plan := WithReached(data, query, t, s, i, load);
    EnoughAll(data, query, u, Below(s) + {i}, Below(s) + {i}, load);
    assert Enough(data, query, u, Below(s) + {i}, Below(s) + {i}, load, i);
    assert Enough(data, query, u, Below(s) + {i}, Below(s) + {i}, load, e);
  }

  lemma LikelyOf(data: Data, query: Query, t: seq<int>, s: nat, i: nat) returns (u: seq<int>, load: Load)
    requires 1 <= s <= i < |query.effects| <= EFFECTS && IsAllowed(data, query, t) && IsWholeArmors(data, t) && Likely(data, query, t, s, i)
    ensures IsAllowed(data, query, u) && IsWholeArmors(data, u) && load.AreJewels(data)
    ensures ComesWith(data, query, t, s, i, load) && AllEnough(data, query, u, Below(s) + {i}, Below(s) + {i}, load)
  {
    hide ComesWith, AllEnough, Alike, SomeComes, PointBounds.IsAllowed;
    u, load :| Companion(data, query, t, u, s) && ComesWith(data, query, t, s, i, load) && load.AreJewels(data)
      && AllEnough(data, query, u, Below(s) + {i}, Below(s) + {i}, load);
  }

  lemma UsersTake(data: Data, query: Query, ids: seq<int>, e: nat)
    requires e < |query.effects| && AllUsable(data, query, ids) && data.AreJewels(ids) && UsableTake(data, query, e)
    ensures forall n :: 0 <= n < |ids| ==> PointsOf(data.jewels[ids[n]].effects, query.effects[e].id) < 0
  {
    hide Usable, PointsOf;
    forall n | 0 <= n < |ids|
      ensures PointsOf(data.jewels[ids[n]].effects, query.effects[e].id) < 0
    {
      assert Usable(data, query, ids[n]) && Gives(data, query, ids[n], e) < 0;
    }
  }
}
