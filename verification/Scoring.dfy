/** The points that armor sets of a tree have in one skill. */
module Scorings {
  import opened Datasets
  import opened NodePools

  /** Every armor's points in the skill; the body piece counts several times. */
  datatype Scoring = Scoring(points: seq<int>, isBody: seq<bool>)
  {
    predicate Knows(armor: int) { 0 <= armor < |points| && armor < |isBody| }

    function Value(armor: int, multiplier: int): int {
      if !Knows(armor) then 0
      else if isBody[armor] && multiplier > 1 then points[armor] * multiplier
      else points[armor]
    }

    function SetPoints(t: seq<int>, multiplier: int): int {
      if t == [] then 0 else Value(t[0], multiplier) + SetPoints(t[1..], multiplier)
    }

    /** Every armor of the set, and every lower part of the set, has points between `lo` and `hi`. */
    ghost predicate Between(t: seq<int>, multiplier: int, lo: int, hi: int) {
      t != [] ==>
        && Knows(t[0])
        && lo <= Value(t[0], multiplier) <= hi
        && lo <= SetPoints(t, multiplier) <= hi
        && Between(t[1..], multiplier, lo, hi)
    }
  }

  lemma SetPointsCons(scoring: Scoring, t: seq<int>, multiplier: int)
    requires t != []
    ensures scoring.SetPoints(t, multiplier) == scoring.Value(t[0], multiplier) + scoring.SetPoints(t[1..], multiplier)
    ensures |t| == 1 ==> scoring.SetPoints(t, multiplier) == scoring.Value(t[0], multiplier)
  {
  }

  ghost predicate AllBetween(scoring: Scoring, pool: Pool, id: int, multiplier: int, lo: int, hi: int)
    requires pool.Valid() && pool.IsOr(id)
  {
    forall t :: CountOr(pool, id, t) > 0 ==> scoring.Between(t, multiplier, lo, hi)
  }

  /** The bounds hold for the parts of a tree when they hold for the tree. */
  lemma BetweenBelow(scoring: Scoring, pool: Pool, id: int, n: nat, multiplier: int, lo: int, hi: int)
    requires pool.Valid() && pool.IsOr(id) && pool.ors[id].tag == ANDS && n < |pool.ors[id].daughters|
    requires pool.IsAnd(pool.ors[id].daughters[n], id)
    requires AllBetween(scoring, pool, id, multiplier, lo, hi)
    ensures var node := pool.ands[pool.ors[id].daughters[n]];
      && AllBetween(scoring, pool, node.left, multiplier, lo, hi)
      && AllBetween(scoring, pool, node.right, multiplier, lo, hi)
  {
    var d := pool.ors[id].daughters[n];
    AndBetween(scoring, pool, id, n, multiplier, lo, hi);
    var node := pool.ands[d];
    var someLeft := SomeSet(pool, node.left);
    var someRight := SomeSet(pool, node.right);
    forall t | CountOr(pool, node.left, t) > 0
      ensures scoring.Between(t, multiplier, lo, hi)
    {
      CountAndOf(pool, d, t[0], someRight);
      assert scoring.Between([t[0]] + someRight, multiplier, lo, hi);
      assert t == [t[0]];
    }
    forall t | CountOr(pool, node.right, t) > 0
      ensures scoring.Between(t, multiplier, lo, hi)
    {
      CountAndOf(pool, d, someLeft[0], t);
      assert scoring.Between([someLeft[0]] + t, multiplier, lo, hi);
      assert ([someLeft[0]] + t)[1..] == t;
    }
  }

  lemma AndBetween(scoring: Scoring, pool: Pool, id: int, n: nat, multiplier: int, lo: int, hi: int)
    requires pool.Valid() && pool.IsOr(id) && pool.ors[id].tag == ANDS && n < |pool.ors[id].daughters|
    requires pool.IsAnd(pool.ors[id].daughters[n], id)
    requires AllBetween(scoring, pool, id, multiplier, lo, hi)
    ensures forall t :: CountAnd(pool, pool.ors[id].daughters[n], t) > 0 ==> scoring.Between(t, multiplier, lo, hi)
  {
    assert pool.ValidOr(id);
    forall t | CountAnd(pool, pool.ors[id].daughters[n], t) > 0
      ensures scoring.Between(t, multiplier, lo, hi)
    {
      CountAndsMember(pool, id, pool.ors[id].daughters, n, t);
    }
  }

  /** The points a skill gives to every armor, as the splitter's constructor reads them off. */
  ghost predicate ScoresSkill(scoring: Scoring, data: Data, skill: int) {
    && |scoring.points| == |scoring.isBody| == |data.armors|
    && forall a :: data.IsArmor(a) ==>
         && scoring.points[a] == PointsOf(data.armors[a].effects, skill)
         && scoring.isBody[a] == (data.armors[a].part == BODY)
  }
}
