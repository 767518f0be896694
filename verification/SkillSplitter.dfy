/** Refining a tree by one more skill, with branch and bound. */
module SkillSplitters {
  import opened Signatures
  import opened Datasets
  import opened NodePools
  import opened Scorings
  import opened SplitResults
  import opened SplitSteps
  import opened TinyMaps
  import opened AndGroups

  class SkillSplitter {
    const pool: NodePool
    const effectId: nat
    const scoring: Scoring

    constructor (data: Data, pool: NodePool, effectId: nat, skill: int)
      requires data.Valid() && effectId < EFFECTS
      ensures this.pool == pool && this.effectId == effectId && ScoresSkill(scoring, data, skill)
    {
      var points, isBody := [], [];
      for i := 0 to |data.armors|
        invariant |points| == |isBody| == i
        invariant forall a :: 0 <= a < i ==> points[a] == PointsOf(data.armors[a].effects, skill)
        invariant forall a :: 0 <= a < i ==> isBody[a] == (data.armors[a].part == BODY)
      {
        var effects, own := data.armors[i].effects, 0;
        assert data.IsArmor(i) && ValidArmor(data.armors[i]);
        PointsOfDistinct(effects, skill);
        var n := 0;
        while n < |effects|
          invariant 0 <= n <= |effects| && own == 0
          invariant forall e :: 0 <= e < n ==> effects[e].id != skill
        {
          if effects[n].id == skill {
            own := effects[n].points;
            break;
          }
          n := n + 1;
        }
        points := points + [own];
        isBody := isBody + [data.armors[i].part == BODY];
      }
      this.pool := pool;
      this.effectId := effectId;
      this.scoring := Scoring(points, isBody);
    }

    method MaxArmorOr(orId: int, multiplier: int, ghost hi: int) returns (result: int)
      requires pool.State().Valid() && pool.State().IsOr(orId) && pool.ors[orId].tag == ARMORS
      requires AllBetween(scoring, pool.State(), orId, multiplier, FLOOR, hi)
      ensures IsMaximum(pool.State(), scoring, orId, multiplier, result)
    {
      result := FLOOR;
      var armors := pool.ors[orId].daughters;
      assert pool.State().ValidOr(orId);
      var i := 0;
      while i < |armors|
        invariant 0 <= i <= |armors|
        invariant forall n :: 0 <= n < i ==> scoring.Value(armors[n], multiplier) <= result
        invariant i > 0 ==> exists n :: 0 <= n < i && scoring.Value(armors[n], multiplier) == result
        invariant result >= FLOOR && (i == 0 ==> result == FLOOR)
      {
        ArmorBetween(scoring, pool.State(), orId, armors[i], multiplier, FLOOR, hi);
        var points := scoring.points[armors[i]];
        if scoring.isBody[armors[i]] && multiplier > 1 {
          points := points * multiplier;
        }
        if points > result {
          result := points;
        }
        i := i + 1;
      }
      ArmorsMaximum(pool.State(), scoring, orId, multiplier, result);
    }

    method MaxAnd(andId: int, ghost bound: int, multiplier: int, ghost hi: int) returns (result: int)
      requires pool.State().Valid() && bound <= |pool.ors| && pool.State().IsAnd(andId, bound)
      requires AllBetween(scoring, pool.State(), pool.ands[andId].left, multiplier, FLOOR, hi)
      requires AllBetween(scoring, pool.State(), pool.ands[andId].right, multiplier, FLOOR, hi)
      ensures IsMaximumAnd(pool.State(), scoring, andId, multiplier, result)
      decreases bound, 0
    {
      var node := pool.ands[andId];
      var left := MaxArmorOr(node.left, multiplier, hi);
      var right;
      if pool.ors[node.right].tag == ANDS {
        right := MaxOr(node.right, multiplier, hi);
      } else {
        right := MaxArmorOr(node.right, multiplier, hi);
      }
      MaximumAnd(pool.State(), scoring, andId, multiplier, left, right);
      result := left + right;
    }

    method MaxOr(orId: int, multiplier: int, ghost hi: int) returns (result: int)
      requires pool.State().Valid() && pool.State().IsOr(orId) && pool.ors[orId].tag == ANDS
      requires AllBetween(scoring, pool.State(), orId, multiplier, FLOOR, hi)
      ensures IsMaximum(pool.State(), scoring, orId, multiplier, result)
      decreases orId, 1
    {
      hide CountOr, CountAnd, AllBetween, Scoring.SetPoints;
      result := FLOOR;
      var ds := pool.ors[orId].daughters;
      assert pool.State().ValidOr(orId);
      ghost var best: seq<int> := [];
      var i := 0;
      while i < |ds|
        invariant 0 <= i <= |ds|
        invariant forall n, t :: 0 <= n < i && CountAnd(pool.State(), ds[n], t) > 0 ==> scoring.SetPoints(t, multiplier) <= result
        invariant i > 0 ==> CountOr(pool.State(), orId, best) > 0 && scoring.SetPoints(best, multiplier) == result
        invariant result >= FLOOR && (i == 0 ==> result == FLOOR)
      {
        BetweenBelow(scoring, pool.State(), orId, i, multiplier, FLOOR, hi);
        var tmp := MaxAnd(ds[i], orId, multiplier, hi);
        ghost var t :| CountAnd(pool.State(), ds[i], t) > 0 && scoring.SetPoints(t, multiplier) == tmp;
        AndMember(scoring, pool.State(), orId, i, t, multiplier, FLOOR, hi);
        if tmp > result || i == 0 {
          best := t;
        }
        if tmp > result {
          result := tmp;
        }
        i := i + 1;
      }
      AndsMaximum(pool.State(), scoring, orId, multiplier, result);
    }

    /** The largest total over all armor sets of the tree. */
    method Max(orId: int, multiplier: int, ghost hi: int) returns (result: int)
      requires pool.State().Valid() && pool.State().IsOr(orId) && pool.ors[orId].tag == ANDS
      requires AllBetween(scoring, pool.State(), orId, multiplier, FLOOR, hi)
      ensures IsMaximum(pool.State(), scoring, orId, multiplier, result)
    {
      result := MaxOr(orId, multiplier, hi);
    }

    /** The armors of an OR, grouped by points. */
    method CollectArmors(orId: int, multiplier: int) returns (max: int, groups: CompositeListMap)
      requires pool.State().Valid() && pool.State().IsOr(orId) && pool.ors[orId].tag == ARMORS
      requires AllBetween(scoring, pool.State(), orId, multiplier, LOWEST_KEY, HIGHEST_KEY)
      ensures fresh(groups) && groups.Valid() && GroupedByPoints(scoring, groups.container, multiplier)
      ensures forall x :: Total(groups.container, x) == multiset(pool.ors[orId].daughters)[x]
      ensures forall x :: x in pool.ors[orId].daughters ==> scoring.Value(x, multiplier) <= max
    {
      hide Total, GroupedByPoints, AllBetween, CountOr, Indexed, Pushed, Pool.Valid;
      max := FLOOR;
      groups := new CompositeListMap();
      NoGroups(scoring, multiplier);
      var armors := pool.ors[orId].daughters;
      for i := 0 to |armors|
        invariant fresh(groups) && groups.Valid() && GroupedByPoints(scoring, groups.container, multiplier)
        invariant forall x :: Total(groups.container, x) == multiset(armors[..i])[x]
        invariant forall n :: 0 <= n < i ==> scoring.Value(armors[n], multiplier) <= max
      {
        ArmorBetween(scoring, pool.State(), orId, armors[i], multiplier, LOWEST_KEY, HIGHEST_KEY);
        var points := scoring.points[armors[i]];
        if scoring.isBody[armors[i]] && multiplier > 1 {
          points := points * multiplier;
        }
        if points > max {
          max := points;
        }
        GroupArmor(scoring, groups.container, armors[..i], armors[i], multiplier);
        assert armors[..i + 1] == armors[..i] + [armors[i]];
        groups.Push(points, armors[i]);
      }
      assert armors[..|armors|] == armors;
    }

    /** One OR of armors for every point value of the armors of an OR. */
    method SplitArmors(orId: int, multiplier: int) returns (max: int, items: seq<TempOr>)
      requires pool.State().Valid() && pool.State().IsOr(orId) && pool.ors[orId].tag == ARMORS
      requires AllBetween(scoring, pool.State(), orId, multiplier, LOWEST_KEY, HIGHEST_KEY) && effectId < EFFECTS
      modifies pool
      ensures pool.State().Valid()
      ensures forall min :: IsSplit(old(pool.State()), pool.State(), scoring, orId, items, multiplier, effectId, 1, min)
      ensures forall n :: 0 <= n < |items| ==> items[n].points <= max
    {
      hide CountItems, Total, CountOr, IsSplit, GroupedByPoints, AllBetween;
      var groups;
      max, groups := CollectArmors(orId, multiplier);
      var key := pool.ors[orId].key;
      ghost var older := pool.State();
      var entries := groups.container;
      items := [];
      NoGroups(scoring, multiplier);
      NoItems(older);
      assert entries[..0] == [];
      for i := 0 to |entries|
        invariant pool.State().Valid() && pool.State().Extends(older)
        invariant ItemsOk(pool.State(), scoring, items, multiplier, key, effectId, 1)
        invariant forall t :: CountItems(pool.State(), items, t) == if |t| == 1 then Total(entries[..i], t[0]) else 0
        invariant forall n :: 0 <= n < |items| ==> items[n].points <= max
      {
        ghost var before := pool.State();
        var entry := entries[i];
        var id := pool.MakeOR(ARMORS, AddPoints(key, effectId, entry.0), entry.1);
        GroupNode(before, pool.State(), scoring, entries, i, items, multiplier, key, effectId);
        GroupMax(scoring, entries, older.ors[orId].daughters, i, multiplier, max);
        items := items + [TempOr(id, entry.0)];
      }
      assert entries[..|entries|] == entries;
      ArmorsSplit(older, pool.State(), scoring, orId, items, multiplier, effectId);
    }

    /** Pair one group of left armors with the right trees that bring the sum to `min`. */
    method PairWithRight(leftOr: int, leftPoints: int, right: seq<TempOr>, min: int, newAnds: CompositeListMap,
                         multiplier: int, ghost rightKey: Signature, ghost depth: nat)
      requires pool.State().Valid() && pool.State().IsOr(leftOr) && pool.ors[leftOr].tag == ARMORS && effectId < EFFECTS
      requires forall n :: 0 <= n < |pool.ors[leftOr].daughters| ==>
                 scoring.Value(pool.ors[leftOr].daughters[n], multiplier) == leftPoints
      requires ItemsOk(pool.State(), scoring, right, multiplier, rightKey, effectId, depth)
      requires forall n :: 0 <= n < |right| && leftPoints + right[n].points >= min ==>
                 LOWEST_KEY <= leftPoints + right[n].points <= HIGHEST_KEY
      requires newAnds.Valid() && EntriesReach(newAnds.container, min)
      requires EntriesOk(pool.State(), scoring, newAnds.container, multiplier, depth + 1)
      modifies pool, newAnds
      ensures pool.State().Valid() && pool.State().Extends(old(pool.State()))
      ensures newAnds.Valid() && EntriesReach(newAnds.container, min)
      ensures EntriesOk(pool.State(), scoring, newAnds.container, multiplier, depth + 1)
      ensures EntriesAnds(old(pool.State()), old(newAnds.container)) && EntriesAnds(pool.State(), newAnds.container)
      ensures forall t ::
        CountEntries(pool.State(), newAnds.container, t) ==
        CountEntries(old(pool.State()), old(newAnds.container), t)
        + LeftShare(old(pool.State()), old(pool.ors)[leftOr].daughters, leftPoints, right, min, t)
    {
      hide CountEntries, CountOr, EntriesOk, EntriesAnds, ItemsOk, LeftShare, EntriesReach;
      ghost var older, c0, list := pool.State(), newAnds.container, pool.ors[leftOr].daughters;
      ItemsAreOrs(older, scoring, right, multiplier, rightKey, effectId, depth);
      EntriesOkAnds(older, scoring, c0, multiplier, depth + 1);
      NoRightShare(older, list, leftPoints, right, min);
      for i := 0 to |right|
        invariant pool.State().Valid() && pool.State().Extends(older) && newAnds.Valid() && EntriesReach(newAnds.container, min)
        invariant EntriesOk(pool.State(), scoring, newAnds.container, multiplier, depth + 1)
        invariant EntriesAnds(pool.State(), newAnds.container)
        invariant forall t ::
          CountEntries(pool.State(), newAnds.container, t) ==
          CountEntries(older, c0, t) + LeftShare(older, list, leftPoints, right[..i], min, t)
      {
        ghost var before, c := pool.State(), newAnds.container;
        var points := leftPoints + right[i].points;
        OneMoreRight(older, list, leftPoints, right, i, min);
        if points >= min {
          var d := pool.MakeAnd(leftOr, right[i].id);
          PairedAnd(older, before, pool.State(), scoring, leftOr, leftPoints, right, i, d, multiplier, rightKey, effectId, depth);
          EntriesStable(before, pool.State(), scoring, c, multiplier, depth + 1);
          EntriesPushed(pool.State(), scoring, c, points, d, multiplier, depth + 1);
          ReachPushed(c, points, d, min);
          newAnds.Push(points, d);
        }
      }
      assert right[..|right|] == right;
    }

    /** Pair one group of left armors, unless even the best right tree cannot bring it to `min`. */
    method PairGroup(left: Container<int>, i: nat, leftKey: Signature, right: seq<TempOr>, rightMax: int, min: int,
                     newAnds: CompositeListMap, multiplier: int, ghost pool1: Pool, ghost rightKey: Signature, ghost depth: nat)
      requires pool.State().Valid() && pool1.Valid() && pool.State().Extends(pool1) && effectId < EFFECTS
      requires i < |left| && left[i].1 != [] && GroupedByPoints(scoring, left, multiplier) && PairsInRange(left, right)
      requires ItemsOk(pool1, scoring, right, multiplier, rightKey, effectId, depth)
      requires forall n :: 0 <= n < |right| ==> pool1.IsOr(right[n].id) && right[n].points <= rightMax
      requires newAnds.Valid() && EntriesReach(newAnds.container, min)
      requires EntriesOk(pool.State(), scoring, newAnds.container, multiplier, depth + 1)
      modifies pool, newAnds
      ensures pool.State().Valid() && pool.State().Extends(old(pool.State()))
      ensures newAnds.Valid() && EntriesReach(newAnds.container, min)
      ensures EntriesOk(pool.State(), scoring, newAnds.container, multiplier, depth + 1)
      ensures EntriesAnds(old(pool.State()), old(newAnds.container)) && EntriesAnds(pool.State(), newAnds.container)
      ensures forall t ::
        CountEntries(pool.State(), newAnds.container, t) ==
        CountEntries(old(pool.State()), old(newAnds.container), t)
        + LeftShare(pool1, left[i].1, left[i].0, right, min, t)
    {
      hide CountEntries, CountOr, EntriesOk, EntriesAnds, ItemsOk, EntriesReach, LeftShare, GroupedByPoints;
      var points := left[i].0;
      if rightMax + points >= min {
        ghost var before := pool.State();
        var leftOr := pool.MakeOR(ARMORS, AddPoints(leftKey, effectId, points), left[i].1);
        BeforePairing(pool1, before, pool.State(), scoring, left, i, right, multiplier, rightKey, effectId, depth,
                      newAnds.container, min);
        PairWithRight(leftOr, points, right, min, newAnds, multiplier, rightKey, depth);
      } else {
        NothingReaches(pool1, left, right, i, rightMax, min);
        EntriesOkAnds(pool.State(), scoring, newAnds.container, multiplier, depth + 1);
      }
    }

    /** Split the pairs of one AND by points; ANDs that cannot reach `subMin` are dropped. */
    method SplitAnd(andId: int, subMin: int, newAnds: CompositeListMap, multiplier: int, ghost bound: int, ghost depth: nat)
      requires pool.State().Valid() && bound <= |pool.ors| && pool.State().IsAnd(andId, bound) && effectId < EFFECTS
      requires depth > 0 && HasDepth(pool.State(), pool.ands[andId].right, depth)
      requires forall t :: CountAnd(pool.State(), andId, t) > 0 ==> scoring.Between(t, multiplier, LOWEST_KEY, HIGHEST_KEY)
      requires AllBetween(scoring, pool.State(), pool.ands[andId].left, multiplier, LOWEST_KEY, HIGHEST_KEY)
      requires AllBetween(scoring, pool.State(), pool.ands[andId].right, multiplier, LOWEST_KEY, HIGHEST_KEY)
      requires newAnds.Valid() && EntriesReach(newAnds.container, subMin)
      requires EntriesOk(pool.State(), scoring, newAnds.container, multiplier, depth + 1)
      modifies pool, newAnds
      ensures pool.State().Valid() && pool.State().Extends(old(pool.State()))
      ensures newAnds.Valid() && EntriesReach(newAnds.container, subMin)
      ensures EntriesOk(pool.State(), scoring, newAnds.container, multiplier, depth + 1)
      ensures EntriesAnds(old(pool.State()), old(newAnds.container)) && EntriesAnds(pool.State(), newAnds.container)
      ensures forall t ::
        CountEntries(pool.State(), newAnds.container, t) ==
        CountEntries(old(pool.State()), old(newAnds.container), t)
        + if scoring.SetPoints(t, multiplier) >= subMin then CountAnd(old(pool.State()), andId, t) else 0
      decreases bound, 0
    {
      hide CountEntries, CountOr, CountAnd, EntriesOk, EntriesAnds, ItemsOk, EntriesReach, LeftShares, LeftShare, HasDepth,
        IsSplit, AllBetween, CountItems, GroupedByPoints, Total, Scoring.SetPoints, PairsInRange;
      ghost var older, c0 := pool.State(), newAnds.container;
      var node := pool.ands[andId];
      var leftMax, groups := CollectArmors(node.left, multiplier);
      var left := groups.container;
      var rightMax, right;
      ghost var rightKey := pool.ors[node.right].key;
      DepthTag(older, node.right, depth);
      if pool.ors[node.right].tag == ANDS {
        rightMax, right := SplitOr(node.right, subMin - leftMax, multiplier, depth);
      } else {
        rightMax, right := SplitArmors(node.right, multiplier);
      }
      ghost var pool1 := pool.State();
      PrepareSplitAnd(older, pool1, scoring, andId, left, right, multiplier, effectId, depth, leftMax, subMin, c0);
      var leftKey := pool.ors[pool.ands[andId].left].key;
      for i := 0 to |left|
        invariant pool.State().Valid() && pool.State().Extends(pool1) && newAnds.Valid() && EntriesReach(newAnds.container, subMin)
        invariant EntriesOk(pool.State(), scoring, newAnds.container, multiplier, depth + 1)
        invariant EntriesAnds(pool.State(), newAnds.container)
        invariant forall t ::
          CountEntries(pool.State(), newAnds.container, t) ==
          CountEntries(older, c0, t) + LeftShares(pool1, left[..i], right, subMin, t)
      {
        OneMoreLeft(pool1, left, right, i, subMin);
        PairGroup(left, i, leftKey, right, rightMax, subMin, newAnds, multiplier, pool1, rightKey, depth);
      }
      assert left[..|left|] == left;
      AfterSplitAnd(older, pool1, scoring, andId, left, right, multiplier, effectId, depth, leftMax, subMin);
    }

    /** Split a tree: one tree for every point value that reaches `subMin`. */
    method SplitOr(orId: int, subMin: int, multiplier: int, ghost depth: nat) returns (max: int, items: seq<TempOr>)
      requires pool.State().Valid() && pool.State().IsOr(orId) && pool.ors[orId].tag == ANDS && effectId < EFFECTS
      requires HasDepth(pool.State(), orId, depth)
      requires AllBetween(scoring, pool.State(), orId, multiplier, LOWEST_KEY, HIGHEST_KEY)
      modifies pool
      ensures pool.State().Valid()
      ensures IsSplit(old(pool.State()), pool.State(), scoring, orId, items, multiplier, effectId, depth, subMin)
      ensures forall n :: 0 <= n < |items| ==> subMin <= items[n].points <= max
      ensures forall i, j :: 0 <= i < j < |items| ==> items[i].points != items[j].points
      decreases orId, 1
    {
      hide CountEntries, CountOr, CountAnd, CountAnds, EntriesOk, EntriesAnds, ItemsOk, EntriesReach, HasDepth,
        IsSplit, AllBetween, CountItems, Scoring.SetPoints;
      ghost var older := pool.State();
      var newAnds := new CompositeListMap();
      var ds := pool.ors[orId].daughters;
      assert older.ValidOr(orId);
      NoEntries(older, scoring, subMin, multiplier, depth);
      NoAnds(older, orId);
      assert ds[..0] == [];
      for i := 0 to |ds|
        invariant pool.State().Valid() && pool.State().Extends(older) && newAnds.Valid() && EntriesReach(newAnds.container, subMin)
        invariant EntriesOk(pool.State(), scoring, newAnds.container, multiplier, depth)
        invariant EntriesAnds(pool.State(), newAnds.container)
        invariant forall t ::
          CountEntries(pool.State(), newAnds.container, t) ==
          if scoring.SetPoints(t, multiplier) >= subMin then CountAnds(older, orId, ds[..i], t) else 0
      {
        BeforeSplitAnd(older, pool.State(), scoring, orId, i, multiplier, depth);
        OneMoreAnd(older, orId, ds, i);
        SplitAnd(ds[i], subMin, newAnds, multiplier, orId, depth - 1);
      }
      assert ds[..|ds|] == ds;
      max, items := FLOOR, [];
      ghost var pool1 := pool.State();
      var entries := newAnds.container;
      var key := pool.ors[orId].key;
      NoItems(pool1);
      NoItemsOk(pool1, scoring, multiplier, key, effectId, depth);
      assert entries[..0] == [];
      NoEntries(pool1, scoring, subMin, multiplier, depth);
      EntriesReachAt(entries, subMin);
      for i := 0 to |entries|
        invariant pool.State().Valid() && pool.State().Extends(pool1)
        invariant ItemsOk(pool.State(), scoring, items, multiplier, key, effectId, depth)
        invariant EntriesAnds(pool1, entries[..i]) && (forall n :: 0 <= n < |items| ==> pool.State().IsOr(items[n].id))
        invariant forall t :: CountItems(pool.State(), items, t) == CountEntries(pool1, entries[..i], t)
        invariant |items| == i && forall n :: 0 <= n < i ==> items[n].points == entries[n].0 <= max
      {
        var entry := entries[i];
        ghost var before := pool.State();
        EntryNode(pool1, before, scoring, entries, i, multiplier, depth);
        var id := pool.MakeOR(ANDS, AddPoints(key, effectId, entry.0), entry.1);
        EntryItem(pool1, before, pool.State(), scoring, entries, i, items, multiplier, key, effectId, depth);
        items := items + [TempOr(id, entry.0)];
        if entry.0 > max {
          max := entry.0;
        }
      }
      assert entries[..|entries|] == entries;
      AfterSplitOr(older, pool1, pool.State(), scoring, orId, entries, items, multiplier, effectId, depth, subMin);
    }

    /** The refined trees: together they list exactly the armor sets with at least `subMin` points, as often as before;
        sets with the same points stand in the same tree. */
    method Split(orId: int, subMin: int, multiplier: int, ghost depth: nat) returns (result: seq<int>)
      requires pool.State().Valid() && pool.State().IsOr(orId) && pool.ors[orId].tag == ANDS && effectId < EFFECTS
      requires HasDepth(pool.State(), orId, depth)
      requires AllBetween(scoring, pool.State(), orId, multiplier, LOWEST_KEY, HIGHEST_KEY)
      modifies pool
      ensures pool.State().Valid() && pool.State().Extends(old(pool.State()))
      ensures forall n :: 0 <= n < |result| ==>
        Refined(old(pool.State()), pool.State(), scoring, orId, result[n], multiplier, effectId, depth, subMin)
      ensures OneTreeEach(pool.State(), scoring, result, multiplier)
      ensures forall t ::
        CountForest(pool.State(), result, t) ==
        if scoring.SetPoints(t, multiplier) >= subMin then CountOr(old(pool.State()), orId, t) else 0
    {
      var max, items := SplitOr(orId, subMin, multiplier, depth);
      result := seq(|items|, n requires 0 <= n < |items| => items[n].id);
      AfterSplit(old(pool.State()), pool.State(), scoring, orId, items, multiplier, effectId, depth, subMin);
    }
  }
}
