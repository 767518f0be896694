/** The reasoning behind the splitter: what its loops keep, and what they add up to. */
module SplitSteps {
  import opened Signatures
  import opened NodePools
  import opened Scorings
  import opened SplitResults
  import opened TinyMaps
  import opened AndGroups

  /** The result for an empty list; no real total may lie below it. */
  const FLOOR := -1000

  const LOWEST_KEY := -25
  const HIGHEST_KEY := 38

  // ---------- The maximum ----------

  /** `max` is the largest total of the tree's sets. */
  ghost predicate IsMaximum(pool: Pool, scoring: Scoring, id: int, multiplier: int, max: int)
    requires pool.Valid() && pool.IsOr(id)
  {
    && (forall t :: CountOr(pool, id, t) > 0 ==> scoring.SetPoints(t, multiplier) <= max)
    && (exists t :: CountOr(pool, id, t) > 0 && scoring.SetPoints(t, multiplier) == max)
  }

  ghost predicate IsMaximumAnd(pool: Pool, scoring: Scoring, d: int, multiplier: int, max: int)
    requires pool.Valid() && pool.IsAnd(d, |pool.ors|)
  {
    && (forall t :: CountAnd(pool, d, t) > 0 ==> scoring.SetPoints(t, multiplier) <= max)
    && (exists t :: CountAnd(pool, d, t) > 0 && scoring.SetPoints(t, multiplier) == max)
  }

  lemma MaximumAnd(pool: Pool, scoring: Scoring, d: int, multiplier: int, left: int, right: int)
    requires pool.Valid() && pool.IsAnd(d, |pool.ors|)
    requires IsMaximum(pool, scoring, pool.ands[d].left, multiplier, left)
    requires IsMaximum(pool, scoring, pool.ands[d].right, multiplier, right)
    ensures IsMaximumAnd(pool, scoring, d, multiplier, left + right)
  {
    hide Pairs, CountOr, Scoring.SetPoints, Scoring.Value;
    var node := pool.ands[d];
    forall t | CountAnd(pool, d, t) > 0
      ensures scoring.SetPoints(t, multiplier) <= left + right
    {
      assert t == [t[0]] + t[1..];
      CountAndOf(pool, d, t[0], t[1..]);
      CountArmor(pool, node.left, t[0]);
      SetPointsCons(scoring, t, multiplier);
      SetPointsCons(scoring, [t[0]], multiplier);
    }
    var a :| CountOr(pool, node.left, a) > 0 && scoring.SetPoints(a, multiplier) == left;
    var rest :| CountOr(pool, node.right, rest) > 0 && scoring.SetPoints(rest, multiplier) == right;
    CountLeaf(pool, node.left, a);
    CountAndOf(pool, d, a[0], rest);
    SetPointsCons(scoring, a, multiplier);
    SetPointsCons(scoring, [a[0]] + rest, multiplier);
    assert ([a[0]] + rest)[1..] == rest;
  }

  lemma CountArmor(pool: Pool, id: int, armor: int)
    requires pool.Valid() && pool.IsOr(id) && pool.ors[id].tag == ARMORS
    ensures CountOr(pool, id, [armor]) > 0 <==> armor in pool.ors[id].daughters
  {
  }

  lemma CountLeaf(pool: Pool, id: int, t: seq<int>)
    requires pool.Valid() && pool.IsOr(id) && pool.ors[id].tag == ARMORS && CountOr(pool, id, t) > 0
    ensures |t| == 1 && t == [t[0]] && t[0] in pool.ors[id].daughters
  {
  }

  // ---------- Left armors paired with right sets ----------

  /** How often armors `list`, worth `points` each, give `t` with a right set such that the sum reaches `min`. */
  ghost function LeftShare(pool: Pool, list: seq<int>, points: int, right: seq<TempOr>, min: int, t: seq<int>): nat
    requires pool.Valid() && forall n :: 0 <= n < |right| ==> pool.IsOr(right[n].id)
  {
    if t == [] then 0 else Pairs(multiset(list)[t[0]], RightShare(pool, right, min - points, t[1..]))
  }

  /** How often the right sets with at least `min` points list `u`. */
  ghost function RightShare(pool: Pool, right: seq<TempOr>, min: int, u: seq<int>): nat
    requires pool.Valid() && forall n :: 0 <= n < |right| ==> pool.IsOr(right[n].id)
  {
    if right == [] then 0
    else (if right[0].points >= min then CountOr(pool, right[0].id, u) else 0) + RightShare(pool, right[1..], min, u)
  }

  ghost function LeftShares(pool: Pool, left: Container<int>, right: seq<TempOr>, min: int, t: seq<int>): nat
    requires pool.Valid() && forall n :: 0 <= n < |right| ==> pool.IsOr(right[n].id)
  {
    if left == [] then 0
    else LeftShare(pool, left[0].1, left[0].0, right, min, t) + LeftShares(pool, left[1..], right, min, t)
  }

  lemma {:induction false} RightShareIs(pool: Pool, scoring: Scoring, right: seq<TempOr>, m: int, key: Signature,
                                        effect: nat, depth: nat, min: int, u: seq<int>)
    requires pool.Valid() && effect < EFFECTS && ItemsOk(pool, scoring, right, m, key, effect, depth)
    ensures RightShare(pool, right, min, u) == if scoring.SetPoints(u, m) >= min then CountItems(pool, right, u) else 0
  {
    hide CountOr;
    if right != [] {
      assert ItemOk(pool, scoring, right[0], m, key, effect, depth);
      assert ItemsOk(pool, scoring, right[1..], m, key, effect, depth);
      RightShareIs(pool, scoring, right[1..], m, key, effect, depth, min, u);
    }
  }

  /** Only the list of an armor's own points holds it, so the shares add up to a product. */
  lemma {:induction false} LeftSharesAre(pool: Pool, scoring: Scoring, left: Container<int>, right: seq<TempOr>, m: int, min: int, t: seq<int>)
    requires pool.Valid() && (forall n :: 0 <= n < |right| ==> pool.IsOr(right[n].id)) && t != []
    requires forall n, j :: 0 <= n < |left| && 0 <= j < |left[n].1| ==> scoring.Value(left[n].1[j], m) == left[n].0
    ensures LeftShares(pool, left, right, min, t)
         == Pairs(Total(left, t[0]), RightShare(pool, right, min - scoring.Value(t[0], m), t[1..]))
  {
    hide Pairs, RightShare;
    if left != [] {
      var own := RightShare(pool, right, min - scoring.Value(t[0], m), t[1..]);
      assert forall n :: 0 < n < |left| ==> left[n] == left[1..][n - 1];
      LeftSharesAre(pool, scoring, left[1..], right, m, min, t);
      var count := multiset(left[0].1)[t[0]];
      if count > 0 {
        var j :| 0 <= j < |left[0].1| && left[0].1[j] == t[0];
        assert scoring.Value(left[0].1[j], m) == left[0].0;
      }
      PairsDistribute(count, Total(left[1..], t[0]), own);
      PairsDistribute(count, 0, RightShare(pool, right, min - left[0].0, t[1..]));
      PairsDistribute(0, 0, RightShare(pool, right, min - left[0].0, t[1..]));
    } else {
      PairsDistribute(0, 0, RightShare(pool, right, min - scoring.Value(t[0], m), t[1..]));
    }
  }

  /** All pairs that reach `min`, and nothing else: the sets of the AND with at least `min` points. */
  lemma SharesAreSplit(pool: Pool, scoring: Scoring, d: int, left: Container<int>, right: seq<TempOr>, m: int, key: Signature,
                       effect: nat, depth: nat, leftMax: int, min: int, t: seq<int>)
    requires pool.Valid() && pool.IsAnd(d, |pool.ors|) && effect < EFFECTS
    requires forall n, j :: 0 <= n < |left| && 0 <= j < |left[n].1| ==> scoring.Value(left[n].1[j], m) == left[n].0
    requires forall x :: Total(left, x) == multiset(pool.ors[pool.ands[d].left].daughters)[x]
    requires forall x :: x in pool.ors[pool.ands[d].left].daughters ==> scoring.Value(x, m) <= leftMax
    requires ItemsOk(pool, scoring, right, m, key, effect, depth)
    requires forall u :: scoring.SetPoints(u, m) >= min - leftMax ==>
               CountItems(pool, right, u) == CountOr(pool, pool.ands[d].right, u)
    ensures LeftShares(pool, left, right, min, t) == if scoring.SetPoints(t, m) >= min then CountAnd(pool, d, t) else 0
  {
    hide Pairs, CountOr, RightShare, CountItems, LeftShares, Total, Scoring.SetPoints, Scoring.Value;
    if t == [] {
      NoLeftShares(pool, left, right, min);
    } else {
      var value, rest, count := scoring.Value(t[0], m), t[1..], multiset(pool.ors[pool.ands[d].left].daughters)[t[0]];
      SetPointsCons(scoring, t, m);
      LeftSharesAre(pool, scoring, left, right, m, min, t);
      assert Total(left, t[0]) == count;
      RightShareIs(pool, scoring, right, m, key, effect, depth, min - value, rest);
      PairsDistribute(count, 0, 0);
      PairsDistribute(0, 0, RightShare(pool, right, min - value, rest));
      PairsDistribute(0, 0, CountOr(pool, pool.ands[d].right, rest));
      assert count > 0 ==> value <= leftMax;
    }
  }

  lemma {:induction false} NoLeftShares(pool: Pool, left: Container<int>, right: seq<TempOr>, min: int)
    requires pool.Valid() && forall n :: 0 <= n < |right| ==> pool.IsOr(right[n].id)
    ensures LeftShares(pool, left, right, min, []) == 0
  {
    if left != [] {
      NoLeftShares(pool, left[1..], right, min);
    }
  }

  /** A tree made by a split: its sets all have the same points, which are added to its key. */
  ghost predicate Refined(older: Pool, pool: Pool, scoring: Scoring, id: int, new_: int, multiplier: int,
                          effect: nat, depth: nat, min: int)
    requires older.Valid() && pool.Valid() && older.IsOr(id) && effect < EFFECTS
  {
    && pool.IsOr(new_) && HasDepth(pool, new_, depth)
    && exists points :: points >= min
         && pool.ors[new_].key == AddPoints(older.ors[id].key, effect, points)
         && forall t :: CountOr(pool, new_, t) > 0 ==> scoring.SetPoints(t, multiplier) == points
  }

  /** Sets with the same points stand in the same tree. */
  ghost predicate OneTreeEach(pool: Pool, scoring: Scoring, ids: seq<int>, multiplier: int)
    requires pool.Valid()
  {
    forall n, t, u ::
      && 0 <= n < |ids| && TreeHas(pool, ids[n], t) && CountForest(pool, ids, u) > 0
      && scoring.SetPoints(t, multiplier) == scoring.SetPoints(u, multiplier)
      ==> TreeHas(pool, ids[n], u)
  }

  // ---------- Steps of a split ----------

  ghost predicate GroupedByPoints(scoring: Scoring, c: Container<int>, multiplier: int) {
    forall n, j :: 0 <= n < |c| && 0 <= j < |c[n].1| ==> scoring.Value(c[n].1[j], multiplier) == c[n].0
  }

  /** All ANDs collected reach the bound. */
  ghost predicate EntriesReach(c: Container<int>, min: int) {
    forall n :: 0 <= n < |c| ==> c[n].0 >= min
  }

  /** The new trees list what the old tree lists, wherever it has at least `min` points, and nothing else. */
  ghost predicate IsSplit(older: Pool, pool: Pool, scoring: Scoring, id: int, items: seq<TempOr>, multiplier: int,
                          effect: nat, depth: nat, min: int)
    requires older.Valid() && pool.Valid() && older.IsOr(id) && effect < EFFECTS
  {
    && pool.Extends(older)
    && ItemsOk(pool, scoring, items, multiplier, older.ors[id].key, effect, depth)
    && (forall t :: CountItems(pool, items, t) <= CountOr(older, id, t))
    && (forall t :: scoring.SetPoints(t, multiplier) >= min ==> CountItems(pool, items, t) == CountOr(older, id, t))
  }

  lemma NoItems(pool: Pool)
    requires pool.Valid()
    ensures forall t :: CountItems(pool, [], t) == 0
  {
  }

  lemma NoGroups(scoring: Scoring, multiplier: int)
    ensures GroupedByPoints(scoring, [], multiplier) && forall x :: Total<int>([], x) == 0
  {
  }

  lemma GroupArmor(scoring: Scoring, c: Container<int>, armors: seq<int>, armor: int, multiplier: int)
    requires GroupedByPoints(scoring, c, multiplier)
    requires forall x :: Total(c, x) == multiset(armors)[x]
    ensures GroupedByPoints(scoring, Pushed(c, scoring.Value(armor, multiplier), armor), multiplier)
    ensures forall x :: Total(Pushed(c, scoring.Value(armor, multiplier), armor), x) == multiset(armors + [armor])[x]
  {
    hide Total, Scoring.Value;
    var key := scoring.Value(armor, multiplier);
    PushedEntries(c, key, armor);
    forall x ensures Total(Pushed(c, key, armor), x) == multiset(armors + [armor])[x] {
      PushedTotal(c, key, armor, x);
    }
  }

  lemma {:induction false} TotalMember(c: Container<int>, n: nat, x: int)
    requires n < |c| && x in c[n].1
    ensures Total(c, x) > 0
  {
    if n > 0 {
      TotalMember(c[1..], n - 1, x);
    }
  }

  lemma GroupNode(older: Pool, pool: Pool, scoring: Scoring, c: Container<int>, n: nat, items: seq<TempOr>, multiplier: int,
                  key: Signature, effect: nat)
    requires older.Valid() && pool.Valid() && effect < EFFECTS && n < |c| && GroupedByPoints(scoring, c, multiplier)
    requires pool.Extends(older) && |pool.ors| == |older.ors| + 1
    requires pool.ors[|older.ors|] == OrNode(AddPoints(key, effect, c[n].0), ARMORS, c[n].1)
    requires ItemsOk(older, scoring, items, multiplier, key, effect, 1)
    requires forall t :: CountItems(older, items, t) == if |t| == 1 then Total(c[..n], t[0]) else 0
    ensures ItemsOk(pool, scoring, items + [TempOr(|older.ors|, c[n].0)], multiplier, key, effect, 1)
    ensures forall t :: CountItems(pool, items + [TempOr(|older.ors|, c[n].0)], t)
                     == if |t| == 1 then Total(c[..n + 1], t[0]) else 0
  {
    hide Total, CountItems;
    var id := |older.ors|;
    var item := TempOr(id, c[n].0);
    ItemsStable(older, pool, scoring, items, multiplier, key, effect, 1);
    forall t | CountOr(pool, id, t) > 0
      ensures scoring.SetPoints(t, multiplier) == c[n].0
    {
      CountLeaf(pool, id, t);
      SetPointsCons(scoring, t, multiplier);
    }
    assert ItemOk(pool, scoring, item, multiplier, key, effect, 1);
    forall t
      ensures CountItems(pool, items + [item], t) == if |t| == 1 then Total(c[..n + 1], t[0]) else 0
    {
      CountItemsAppend(pool, items, item, t);
      if |t| == 1 {
        TotalAppend(c, n, t[0]);
      }
    }
  }

  lemma GroupMax(scoring: Scoring, c: Container<int>, armors: seq<int>, n: nat, multiplier: int, max: int)
    requires n < |c| && GroupedByPoints(scoring, c, multiplier) && c[n].1 != []
    requires forall x :: Total(c, x) == multiset(armors)[x]
    requires forall x :: x in armors ==> scoring.Value(x, multiplier) <= max
    ensures c[n].0 <= max && c[n].1[0] in armors
  {
    TotalMember(c, n, c[n].1[0]);
    assert multiset(armors)[c[n].1[0]] > 0;
  }

  lemma ArmorsSplit(older: Pool, pool: Pool, scoring: Scoring, id: int, items: seq<TempOr>, multiplier: int, effect: nat)
    requires older.Valid() && pool.Valid() && pool.Extends(older) && older.IsOr(id) && older.ors[id].tag == ARMORS
    requires effect < EFFECTS && ItemsOk(pool, scoring, items, multiplier, older.ors[id].key, effect, 1)
    requires forall t :: CountItems(pool, items, t) == if |t| == 1 then multiset(older.ors[id].daughters)[t[0]] else 0
    ensures forall min :: IsSplit(older, pool, scoring, id, items, multiplier, effect, 1, min)
  {
    forall t
      ensures CountItems(pool, items, t) == CountOr(older, id, t)
    {
    }
  }

  lemma ItemsAreOrs(pool: Pool, scoring: Scoring, items: seq<TempOr>, multiplier: int, key: Signature, effect: nat, depth: nat)
    requires pool.Valid() && effect < EFFECTS && ItemsOk(pool, scoring, items, multiplier, key, effect, depth)
    ensures forall n :: 0 <= n < |items| ==> pool.IsOr(items[n].id)
  {
    forall n | 0 <= n < |items|
      ensures pool.IsOr(items[n].id)
    {
      assert ItemOk(pool, scoring, items[n], multiplier, key, effect, depth);
    }
  }

  lemma NoRightShare(pool: Pool, list: seq<int>, points: int, right: seq<TempOr>, min: int)
    requires pool.Valid() && forall n :: 0 <= n < |right| ==> pool.IsOr(right[n].id)
    ensures forall t :: LeftShare(pool, list, points, right[..0], min, t) == 0
  {
    forall t | t != []
      ensures LeftShare(pool, list, points, right[..0], min, t) == 0
    {
      PairsDistribute(multiset(list)[t[0]], 0, 0);
    }
  }

  lemma {:induction false} RightShareAppend(pool: Pool, right: seq<TempOr>, n: nat, min: int, u: seq<int>)
    requires pool.Valid() && (forall n :: 0 <= n < |right| ==> pool.IsOr(right[n].id)) && n < |right|
    ensures RightShare(pool, right[..n + 1], min, u)
         == RightShare(pool, right[..n], min, u) + if right[n].points >= min then CountOr(pool, right[n].id, u) else 0
  {
    hide CountOr;
    if n == 0 {
      assert right[..1][1..] == [];
    } else {
      assert right[..n + 1][1..] == right[1..][..n] && right[..n][1..] == right[1..][..n - 1];
      RightShareAppend(pool, right[1..], n - 1, min, u);
    }
  }

  lemma OneMoreRight(pool: Pool, list: seq<int>, points: int, right: seq<TempOr>, n: nat, min: int)
    requires pool.Valid() && (forall n :: 0 <= n < |right| ==> pool.IsOr(right[n].id)) && n < |right|
    ensures forall t ::
      LeftShare(pool, list, points, right[..n + 1], min, t) ==
      LeftShare(pool, list, points, right[..n], min, t)
      + if t != [] && points + right[n].points >= min then Pairs(multiset(list)[t[0]], CountOr(pool, right[n].id, t[1..])) else 0
  {
    hide CountOr, Pairs, RightShare;
    forall t | t != []
      ensures LeftShare(pool, list, points, right[..n + 1], min, t)
         == LeftShare(pool, list, points, right[..n], min, t)
            + if points + right[n].points >= min then Pairs(multiset(list)[t[0]], CountOr(pool, right[n].id, t[1..])) else 0
    {
      RightShareAppend(pool, right, n, min - points, t[1..]);
      PairsDistribute(RightShare(pool, right[..n], min - points, t[1..]), CountOr(pool, right[n].id, t[1..]), multiset(list)[t[0]]);
    }
  }

  lemma ReachPushed(c: Container<int>, key: int, d: int, min: int)
    requires EntriesReach(c, min) && key >= min
    ensures EntriesReach(Pushed(c, key, d), min)
  {
    PushedEntries(c, key, d);
  }

  /** The new AND lists the pairs of its armors with the sets of its right tree. */
  lemma PairedAnd(older: Pool, before: Pool, pool: Pool, scoring: Scoring, leftOr: int, leftPoints: int, right: seq<TempOr>,
                  n: nat, d: int, multiplier: int, rightKey: Signature, effect: nat, depth: nat)
    requires older.Valid() && before.Valid() && pool.Valid() && pool.Extends(before) && before.Extends(older)
    requires effect < EFFECTS && older.IsOr(leftOr) && n < |right|
    requires ItemsOk(older, scoring, right, multiplier, rightKey, effect, depth) && older.IsOr(right[n].id)
    requires pool.IsAnd(d, |pool.ors|) && pool.ands[d] == AndNode(leftOr, right[n].id)
    requires forall j :: 0 <= j < |older.ors[leftOr].daughters| ==>
               scoring.Value(older.ors[leftOr].daughters[j], multiplier) == leftPoints
    ensures AndOk(pool, scoring, d, leftPoints + right[n].points, multiplier, depth + 1)
    ensures forall t :: CountAnd(pool, d, t) == if t == [] then 0 else
              Pairs(multiset(older.ors[leftOr].daughters)[t[0]], CountOr(older, right[n].id, t[1..]))
  {
    hide Pairs, CountOr, Scoring.SetPoints;
    assert pool.ors[leftOr] == older.ors[leftOr];
    assert ItemOk(older, scoring, right[n], multiplier, rightKey, effect, depth);
    DepthStable(older, pool, right[n].id, depth);
    forall t | t != []
      ensures CountAnd(pool, d, t) == Pairs(multiset(older.ors[leftOr].daughters)[t[0]], CountOr(older, right[n].id, t[1..]))
      ensures CountAnd(pool, d, t) > 0 ==> scoring.SetPoints(t, multiplier) == leftPoints + right[n].points
    {
      CountOrStable(older, pool, right[n].id, t[1..]);
      PairsPositive(multiset(older.ors[leftOr].daughters)[t[0]], CountOr(older, right[n].id, t[1..]));
      SetPointsCons(scoring, t, multiplier);
    }
  }

  lemma AndMember(scoring: Scoring, pool: Pool, id: int, n: nat, t: seq<int>, multiplier: int, lo: int, hi: int)
    requires pool.Valid() && pool.IsOr(id) && pool.ors[id].tag == ANDS && n < |pool.ors[id].daughters|
    requires pool.IsAnd(pool.ors[id].daughters[n], id) && CountAnd(pool, pool.ors[id].daughters[n], t) > 0
    requires AllBetween(scoring, pool, id, multiplier, lo, hi)
    ensures CountOr(pool, id, t) > 0 && t != [] && lo <= scoring.SetPoints(t, multiplier) <= hi
  {
    assert pool.ValidOr(id);
    CountAndsMember(pool, id, pool.ors[id].daughters, n, t);
    assert scoring.Between(t, multiplier, lo, hi);
  }

  lemma ArmorBetween(scoring: Scoring, pool: Pool, id: int, armor: int, multiplier: int, lo: int, hi: int)
    requires pool.Valid() && pool.IsOr(id) && pool.ors[id].tag == ARMORS && armor in pool.ors[id].daughters
    requires AllBetween(scoring, pool, id, multiplier, lo, hi)
    ensures scoring.Knows(armor) && lo <= scoring.Value(armor, multiplier) <= hi
  {
    assert CountOr(pool, id, [armor]) > 0;
  }

  lemma ArmorsMaximum(pool: Pool, scoring: Scoring, id: int, multiplier: int, max: int)
    requires pool.Valid() && pool.IsOr(id) && pool.ors[id].tag == ARMORS
    requires var armors := pool.ors[id].daughters;
      && (forall n :: 0 <= n < |armors| ==> scoring.Value(armors[n], multiplier) <= max)
      && (exists n :: 0 <= n < |armors| && scoring.Value(armors[n], multiplier) == max)
    ensures IsMaximum(pool, scoring, id, multiplier, max)
  {
    var armors := pool.ors[id].daughters;
    forall t | CountOr(pool, id, t) > 0
      ensures scoring.SetPoints(t, multiplier) <= max
    {
      CountLeaf(pool, id, t);
      SetPointsCons(scoring, t, multiplier);
      var n :| 0 <= n < |armors| && armors[n] == t[0];
    }
    var n :| 0 <= n < |armors| && scoring.Value(armors[n], multiplier) == max;
    CountArmor(pool, id, armors[n]);
    SetPointsCons(scoring, [armors[n]], multiplier);
  }

  lemma AndsMaximum(pool: Pool, scoring: Scoring, id: int, multiplier: int, max: int)
    requires pool.Valid() && pool.IsOr(id) && pool.ors[id].tag == ANDS && pool.ValidOr(id)
    requires forall n, t :: 0 <= n < |pool.ors[id].daughters| && CountAnd(pool, pool.ors[id].daughters[n], t) > 0 ==>
               scoring.SetPoints(t, multiplier) <= max
    ensures forall t :: CountOr(pool, id, t) > 0 ==> scoring.SetPoints(t, multiplier) <= max
  {
    forall t | CountOr(pool, id, t) > 0
      ensures scoring.SetPoints(t, multiplier) <= max
    {
      var n := CountAndsSome(pool, id, pool.ors[id].daughters, t);
    }
  }

  lemma DepthTag(pool: Pool, id: int, depth: nat)
    requires pool.Valid() && pool.IsOr(id) && HasDepth(pool, id, depth)
    ensures depth > 0 && (pool.ors[id].tag == ARMORS ==> depth == 1)
  {
  }

  lemma NoEntries(pool: Pool, scoring: Scoring, min: int, multiplier: int, depth: nat)
    requires pool.Valid()
    ensures EntriesOk(pool, scoring, [], multiplier, depth) && EntriesAnds<int>(pool, []) && EntriesReach([], min)
    ensures forall t :: CountEntries<int>(pool, [], t) == 0
  {
  }

  lemma NoAnds(pool: Pool, bound: int)
    requires pool.Valid()
    ensures forall t :: CountAnds(pool, bound, [], t) == 0
  {
  }

  lemma NoItemsOk(pool: Pool, scoring: Scoring, multiplier: int, key: Signature, effect: nat, depth: nat)
    requires pool.Valid() && effect < EFFECTS
    ensures ItemsOk(pool, scoring, [], multiplier, key, effect, depth)
  {
  }

  lemma EntriesReachAt(c: Container<int>, min: int)
    requires EntriesReach(c, min)
    ensures forall n :: 0 <= n < |c| ==> c[n].0 >= min
  {
  }

  lemma {:induction false} LeftSharesAppend(pool: Pool, left: Container<int>, right: seq<TempOr>, n: nat, min: int, t: seq<int>)
    requires pool.Valid() && (forall n :: 0 <= n < |right| ==> pool.IsOr(right[n].id)) && n < |left|
    ensures LeftShares(pool, left[..n + 1], right, min, t)
         == LeftShares(pool, left[..n], right, min, t) + LeftShare(pool, left[n].1, left[n].0, right, min, t)
  {
    hide LeftShare;
    if n == 0 {
      assert left[..1][1..] == [];
    } else {
      assert left[..n + 1][1..] == left[1..][..n] && left[..n][1..] == left[1..][..n - 1];
      LeftSharesAppend(pool, left[1..], right, n - 1, min, t);
    }
  }

  lemma OneMoreLeft(pool: Pool, left: Container<int>, right: seq<TempOr>, n: nat, min: int)
    requires pool.Valid() && (forall n :: 0 <= n < |right| ==> pool.IsOr(right[n].id)) && n < |left|
    ensures forall t ::
      LeftShares(pool, left[..n + 1], right, min, t) ==
      LeftShares(pool, left[..n], right, min, t) + LeftShare(pool, left[n].1, left[n].0, right, min, t)
  {
    forall t
      ensures LeftShares(pool, left[..n + 1], right, min, t) ==
              LeftShares(pool, left[..n], right, min, t) + LeftShare(pool, left[n].1, left[n].0, right, min, t)
    {
      LeftSharesAppend(pool, left, right, n, min, t);
    }
  }

  lemma {:induction false} NoneReaches(pool: Pool, right: seq<TempOr>, min: int, u: seq<int>)
    requires pool.Valid() && (forall n :: 0 <= n < |right| ==> pool.IsOr(right[n].id))
    requires forall n :: 0 <= n < |right| ==> right[n].points < min
    ensures RightShare(pool, right, min, u) == 0
  {
    hide CountOr;
    if right != [] {
      NoneReaches(pool, right[1..], min, u);
    }
  }

  /** Skipping a group that cannot reach the bound loses nothing. */
  lemma NothingReaches(pool: Pool, left: Container<int>, right: seq<TempOr>, n: nat, rightMax: int, min: int)
    requires pool.Valid() && (forall n :: 0 <= n < |right| ==> pool.IsOr(right[n].id)) && n < |left|
    requires (forall n :: 0 <= n < |right| ==> right[n].points <= rightMax) && rightMax + left[n].0 < min
    ensures forall t :: LeftShare(pool, left[n].1, left[n].0, right, min, t) == 0
  {
    hide Pairs, RightShare;
    forall t | t != []
      ensures LeftShare(pool, left[n].1, left[n].0, right, min, t) == 0
    {
      NoneReaches(pool, right, min - left[n].0, t[1..]);
      PairsDistribute(multiset(left[n].1)[t[0]], 0, 0);
    }
  }

  lemma BeforeSplitAnd(older: Pool, pool: Pool, scoring: Scoring, id: int, n: nat, multiplier: int, depth: nat)
    requires older.Valid() && pool.Valid() && pool.Extends(older) && older.IsOr(id) && older.ors[id].tag == ANDS
    requires n < |older.ors[id].daughters| && HasDepth(older, id, depth)
    requires AllBetween(scoring, older, id, multiplier, LOWEST_KEY, HIGHEST_KEY)
    ensures var d := older.ors[id].daughters[n];
      && older.IsAnd(d, id) && pool.IsAnd(d, id) && pool.ands[d] == older.ands[d] && depth > 1
      && HasDepth(pool, pool.ands[d].right, depth - 1)
      && (forall t :: CountAnd(pool, d, t) == CountAnd(older, d, t))
      && (forall t :: CountAnd(pool, d, t) > 0 ==> scoring.Between(t, multiplier, LOWEST_KEY, HIGHEST_KEY))
      && AllBetween(scoring, pool, pool.ands[d].left, multiplier, LOWEST_KEY, HIGHEST_KEY)
      && AllBetween(scoring, pool, pool.ands[d].right, multiplier, LOWEST_KEY, HIGHEST_KEY)
  {
    hide CountOr, CountAnd, Scoring.Between;
    assert older.ValidOr(id);
    var d := older.ors[id].daughters[n];
    assert older.IsAnd(d, id);
    DepthStable(older, pool, older.ands[d].right, depth - 1);
    BetweenBelow(scoring, older, id, n, multiplier, LOWEST_KEY, HIGHEST_KEY);
    AndBetween(scoring, older, id, n, multiplier, LOWEST_KEY, HIGHEST_KEY);
    assert pool.ands[d] == older.ands[d] && pool.ors[older.ands[d].left] == older.ors[older.ands[d].left];
    forall t
      ensures pool.IsAnd(d, |pool.ors|) && CountAnd(pool, d, t) == CountAnd(older, d, t)
      ensures CountOr(pool, older.ands[d].left, t) == CountOr(older, older.ands[d].left, t)
      ensures CountOr(pool, older.ands[d].right, t) == CountOr(older, older.ands[d].right, t)
    {
      CountAndStable(older, pool, d, t);
      CountOrStable(older, pool, older.ands[d].left, t);
      CountOrStable(older, pool, older.ands[d].right, t);
    }
  }

  lemma OneMoreAnd(pool: Pool, bound: int, ds: seq<int>, n: nat)
    requires pool.Valid() && bound <= |pool.ors| && n < |ds| && forall n :: 0 <= n < |ds| ==> pool.IsAnd(ds[n], bound)
    requires pool.IsAnd(ds[n], |pool.ors|)
    ensures forall t :: CountAnds(pool, bound, ds[..n + 1], t) == CountAnds(pool, bound, ds[..n], t) + CountAnd(pool, ds[n], t)
  {
    hide CountAnds, CountAnd;
    assert ds[..n + 1] == ds[..n] + [ds[n]];
    forall t
      ensures CountAnds(pool, bound, ds[..n + 1], t) == CountAnds(pool, bound, ds[..n], t) + CountAnd(pool, ds[n], t)
    {
      CountAndsConcat(pool, bound, ds[..n], [ds[n]], t);
      CountAndsOne(pool, bound, ds[n], t);
    }
  }

  // ---------- Glue between the loops ----------

  /** What the loop over the left groups relies on. */
  lemma PrepareSplitAnd(older: Pool, pool: Pool, scoring: Scoring, d: int, left: Container<int>, right: seq<TempOr>, multiplier: int,
                        effect: nat, depth: nat, leftMax: int, min: int, c0: Container<int>)
    requires older.Valid() && pool.Valid() && older.IsAnd(d, |older.ors|) && effect < EFFECTS
    requires IsSplit(older, pool, scoring, older.ands[d].right, right, multiplier, effect, depth, min - leftMax)
    requires GroupedByPoints(scoring, left, multiplier) && (forall n :: 0 <= n < |left| ==> left[n].1 != [])
    requires forall x :: Total(left, x) == multiset(older.ors[older.ands[d].left].daughters)[x]
    requires EntriesOk(older, scoring, c0, multiplier, depth + 1)
    requires forall t :: CountAnd(older, d, t) > 0 ==> scoring.Between(t, multiplier, LOWEST_KEY, HIGHEST_KEY)
    ensures pool.Extends(older) && pool.ands[d] == older.ands[d]
    ensures pool.IsOr(older.ands[d].left) && pool.ors[older.ands[d].left] == older.ors[older.ands[d].left]
    ensures ItemsOk(pool, scoring, right, multiplier, older.ors[older.ands[d].right].key, effect, depth)
    ensures forall n :: 0 <= n < |right| ==> pool.IsOr(right[n].id)
    ensures EntriesOk(pool, scoring, c0, multiplier, depth + 1) && EntriesAnds(older, c0) && EntriesAnds(pool, c0)
    ensures forall t :: CountEntries(pool, c0, t) == CountEntries(older, c0, t)
    ensures forall t :: LeftShares(pool, left[..0], right, min, t) == 0
    ensures PairsInRange(left, right)
  {
    hide EntriesOk, CountEntries, CountOr, CountAnd, ItemsOk, Total, Scoring.SetPoints, GroupedByPoints;
    var node := older.ands[d];
    EntriesStable(older, pool, scoring, c0, multiplier, depth + 1);
    ItemsAreOrs(pool, scoring, right, multiplier, older.ors[node.right].key, effect, depth);
    forall i, n | 0 <= i < |left| && 0 <= n < |right|
      ensures PairInRange(left[i].0, right[n].points)
    {
      PairInSet(older, pool, scoring, d, left, right, multiplier, effect, depth, min - leftMax, i, n);
    }
  }

  predicate PairInRange(left: int, right: int) {
    LOWEST_KEY <= left + right <= HIGHEST_KEY
  }

  ghost predicate PairsInRange(left: Container<int>, right: seq<TempOr>) {
    forall i, n :: 0 <= i < |left| && 0 <= n < |right| ==> PairInRange(left[i].0, right[n].points)
  }

  /** Every pairing of a left group with a right tree stands for some armor set of the AND. */
  lemma PairInSet(older: Pool, pool: Pool, scoring: Scoring, d: int, left: Container<int>, right: seq<TempOr>, multiplier: int,
                  effect: nat, depth: nat, min: int, i: nat, n: nat)
    requires older.Valid() && pool.Valid() && older.IsAnd(d, |older.ors|) && effect < EFFECTS
    requires IsSplit(older, pool, scoring, older.ands[d].right, right, multiplier, effect, depth, min)
    requires GroupedByPoints(scoring, left, multiplier) && (forall n :: 0 <= n < |left| ==> left[n].1 != [])
    requires forall x :: Total(left, x) == multiset(older.ors[older.ands[d].left].daughters)[x]
    requires forall t :: CountAnd(older, d, t) > 0 ==> scoring.Between(t, multiplier, LOWEST_KEY, HIGHEST_KEY)
    requires i < |left| && n < |right|
    ensures PairInRange(left[i].0, right[n].points)
  {
    hide CountOr, CountAnd, Total, Scoring.SetPoints, HasDepth;
    var a := left[i].1[0];
    TotalMember(left, i, a);
    assert multiset(older.ors[older.ands[d].left].daughters)[a] > 0;
    assert ItemOk(pool, scoring, right[n], multiplier, older.ors[older.ands[d].right].key, effect, depth);
    var u := SomeSet(pool, right[n].id);
    ItemsAreOrs(pool, scoring, right, multiplier, older.ors[older.ands[d].right].key, effect, depth);
    CountItemsMember(pool, right, n, u);
    CountAndOf(older, d, a, u);
    SetPointsCons(scoring, [a] + u, multiplier);
    assert ([a] + u)[1..] == u && scoring.Value(a, multiplier) == left[i].0;
    assert scoring.Between([a] + u, multiplier, LOWEST_KEY, HIGHEST_KEY);
  }

  lemma {:induction false} CountItemsMember(pool: Pool, items: seq<TempOr>, n: nat, u: seq<int>)
    requires pool.Valid() && (forall n :: 0 <= n < |items| ==> pool.IsOr(items[n].id))
    requires n < |items| && CountOr(pool, items[n].id, u) > 0
    ensures CountItems(pool, items, u) > 0
  {
    hide CountOr;
    if n > 0 {
      CountItemsMember(pool, items[1..], n - 1, u);
    }
  }

  lemma BeforePairing(pool1: Pool, before: Pool, pool: Pool, scoring: Scoring, left: Container<int>, i: nat, right: seq<TempOr>,
                      multiplier: int, key: Signature, effect: nat, depth: nat, c: Container<int>, min: int)
    requires pool1.Valid() && before.Valid() && pool.Valid() && before.Extends(pool1) && pool.Extends(before)
    requires effect < EFFECTS && i < |left| && GroupedByPoints(scoring, left, multiplier)
    requires ItemsOk(pool1, scoring, right, multiplier, key, effect, depth)
    requires EntriesOk(before, scoring, c, multiplier, depth + 1)
    ensures forall n :: 0 <= n < |left[i].1| ==> scoring.Value(left[i].1[n], multiplier) == left[i].0
    ensures ItemsOk(pool, scoring, right, multiplier, key, effect, depth)
    ensures EntriesOk(pool, scoring, c, multiplier, depth + 1) && EntriesAnds(before, c) && EntriesAnds(pool, c)
    ensures forall t :: CountEntries(pool, c, t) == CountEntries(before, c, t)
    ensures forall n :: 0 <= n < |right| ==> pool1.IsOr(right[n].id) && pool.IsOr(right[n].id)
    ensures forall t :: LeftShare(pool, left[i].1, left[i].0, right, min, t) == LeftShare(pool1, left[i].1, left[i].0, right, min, t)
  {
    hide EntriesOk, CountEntries, CountOr, ItemsOk, Pairs;
    EntriesStable(before, pool, scoring, c, multiplier, depth + 1);
    ItemsStable(pool1, pool, scoring, right, multiplier, key, effect, depth);
    ItemsAreOrs(pool1, scoring, right, multiplier, key, effect, depth);
    forall t | t != []
      ensures RightShare(pool, right, min - left[i].0, t[1..]) == RightShare(pool1, right, min - left[i].0, t[1..])
    {
      RightShareStable(pool1, pool, right, min - left[i].0, t[1..]);
    }
  }

  lemma {:induction false} RightShareStable(older: Pool, pool: Pool, right: seq<TempOr>, min: int, u: seq<int>)
    requires older.Valid() && pool.Valid() && pool.Extends(older)
    requires forall n :: 0 <= n < |right| ==> older.IsOr(right[n].id)
    ensures RightShare(pool, right, min, u) == RightShare(older, right, min, u)
  {
    hide CountOr;
    if right != [] {
      CountOrStable(older, pool, right[0].id, u);
      RightShareStable(older, pool, right[1..], min, u);
    }
  }

  lemma AfterSplitAnd(older: Pool, pool: Pool, scoring: Scoring, d: int, left: Container<int>, right: seq<TempOr>, multiplier: int,
                      effect: nat, depth: nat, leftMax: int, min: int)
    requires older.Valid() && pool.Valid() && older.IsAnd(d, |older.ors|) && effect < EFFECTS
    requires IsSplit(older, pool, scoring, older.ands[d].right, right, multiplier, effect, depth, min - leftMax)
    requires GroupedByPoints(scoring, left, multiplier)
    requires forall x :: Total(left, x) == multiset(older.ors[older.ands[d].left].daughters)[x]
    requires forall x :: x in older.ors[older.ands[d].left].daughters ==> scoring.Value(x, multiplier) <= leftMax
    requires forall n :: 0 <= n < |right| ==> pool.IsOr(right[n].id)
    ensures forall t ::
      LeftShares(pool, left, right, min, t) ==
      if scoring.SetPoints(t, multiplier) >= min then CountAnd(older, d, t) else 0
  {
    hide CountOr, CountAnd, ItemsOk, Total, Scoring.SetPoints, Scoring.Value, CountItems, LeftShares;
    var node := older.ands[d];
    assert pool.ands[d] == node && pool.ors[node.left] == older.ors[node.left];
    forall u
      ensures CountOr(pool, node.right, u) == CountOr(older, node.right, u)
    {
      CountOrStable(older, pool, node.right, u);
    }
    forall t
      ensures LeftShares(pool, left, right, min, t) ==
              if scoring.SetPoints(t, multiplier) >= min then CountAnd(older, d, t) else 0
    {
      CountAndStable(older, pool, d, t);
      SharesAreSplit(pool, scoring, d, left, right, multiplier, older.ors[node.right].key, effect, depth, leftMax, min, t);
    }
  }

  lemma EntryNode(pool1: Pool, pool: Pool, scoring: Scoring, c: Container<int>, n: nat, multiplier: int, depth: nat)
    requires pool1.Valid() && pool.Valid() && pool.Extends(pool1) && n < |c| && EntriesOk(pool1, scoring, c, multiplier, depth)
    ensures forall j :: 0 <= j < |c[n].1| ==> pool.IsAnd(c[n].1[j], |pool.ors|)
    ensures EntriesAnds(pool1, c)
  {
    hide AndOk;
    EntriesOkAnds(pool1, scoring, c, multiplier, depth);
    forall j | 0 <= j < |c[n].1|
      ensures pool.IsAnd(c[n].1[j], |pool.ors|)
    {
      var d := c[n].1[j];
      assert pool1.IsAnd(d, |pool1.ors|) && pool.ands[d] == pool1.ands[d];
      assert pool.ors[pool.ands[d].left] == pool1.ors[pool.ands[d].left];
    }
  }

  /** An OR of the ANDs with one point value. */
  lemma EntryItem(pool1: Pool, before: Pool, pool: Pool, scoring: Scoring, c: Container<int>, n: nat, items: seq<TempOr>, multiplier: int,
                  key: Signature, effect: nat, depth: nat)
    requires pool1.Valid() && before.Valid() && pool.Valid() && before.Extends(pool1) && pool.Extends(before)
    requires effect < EFFECTS && n < |c| && EntriesOk(pool1, scoring, c, multiplier, depth) && c[n].1 != []
    requires |pool.ors| == |before.ors| + 1
    requires pool.ors[|before.ors|] == OrNode(AddPoints(key, effect, c[n].0), ANDS, c[n].1)
    requires ItemsOk(before, scoring, items, multiplier, key, effect, depth)
    requires (forall n :: 0 <= n < |items| ==> before.IsOr(items[n].id)) && EntriesAnds(pool1, c[..n])
    requires forall t :: CountItems(before, items, t) == CountEntries(pool1, c[..n], t)
    ensures var more := items + [TempOr(|before.ors|, c[n].0)];
      && ItemsOk(pool, scoring, more, multiplier, key, effect, depth)
      && (forall n :: 0 <= n < |more| ==> pool.IsOr(more[n].id))
      && EntriesAnds(pool1, c[..n + 1])
      && forall t :: CountItems(pool, more, t) == CountEntries(pool1, c[..n + 1], t)
  {
    hide CountItems, CountEntries, CountAnds, EntriesOk;
    var item := TempOr(|before.ors|, c[n].0);
    ItemsStable(before, pool, scoring, items, multiplier, key, effect, depth);
    EntriesOkAnds(pool1, scoring, c, multiplier, depth);
    EntryItemOk(pool1, before, pool, scoring, c, n, item, multiplier, key, effect, depth);
    assert EntriesAnds(pool1, c[..n + 1]);
    forall t
      ensures CountItems(pool, items + [item], t) == CountEntries(pool1, c[..n + 1], t)
    {
      CountItemsAppend(pool, items, item, t);
      CountEntriesAppend(pool1, c, n, t);
    }
  }

  lemma EntryItemOk(pool1: Pool, before: Pool, pool: Pool, scoring: Scoring, c: Container<int>, n: nat, item: TempOr, multiplier: int,
                    key: Signature, effect: nat, depth: nat)
    requires pool1.Valid() && before.Valid() && pool.Valid() && before.Extends(pool1) && pool.Extends(before)
    requires effect < EFFECTS && n < |c| && EntriesOk(pool1, scoring, c, multiplier, depth) && c[n].1 != []
    requires |pool.ors| == |before.ors| + 1 && item == TempOr(|before.ors|, c[n].0)
    requires pool.ors[|before.ors|] == OrNode(AddPoints(key, effect, c[n].0), ANDS, c[n].1)
    ensures ItemOk(pool, scoring, item, multiplier, key, effect, depth)
    ensures forall j :: 0 <= j < |c[n].1| ==> pool1.IsAnd(c[n].1[j], |pool1.ors|)
    ensures forall t :: CountOr(pool, item.id, t) == CountAnds(pool1, |pool1.ors|, c[n].1, t)
  {
    hide CountAnds, CountAnd, Scoring.SetPoints;
    var ds := c[n].1;
    assert pool.ValidOr(item.id);
    assert EntryOk(pool1, scoring, c[n], multiplier, depth);
    forall j | 0 <= j < |ds|
      ensures AndOk(pool1, scoring, ds[j], c[n].0, multiplier, depth) && AndOk(pool, scoring, ds[j], c[n].0, multiplier, depth)
    {
      AndStable(pool1, pool, scoring, ds[j], c[n].0, multiplier, depth);
    }
    assert AndOk(pool, scoring, ds[0], c[n].0, multiplier, depth);
    assert depth > 1;
    assert HasDepth(pool, item.id, depth);
    forall t
      ensures CountOr(pool, item.id, t) == CountAnds(pool1, |pool1.ors|, ds, t)
      ensures CountOr(pool, item.id, t) > 0 ==> scoring.SetPoints(t, multiplier) == item.points
    {
      CountAndsStable(pool1, pool, |pool1.ors|, item.id, ds, t);
      if CountOr(pool, item.id, t) > 0 {
        var j := CountAndsSome(pool, item.id, ds, t);
        assert AndOk(pool, scoring, ds[j], c[n].0, multiplier, depth);
      }
    }
  }

  lemma AfterSplitOr(older: Pool, pool1: Pool, pool: Pool, scoring: Scoring, id: int, c: Container<int>, items: seq<TempOr>,
                     multiplier: int, effect: nat, depth: nat, min: int)
    requires older.Valid() && pool1.Valid() && pool.Valid() && pool.Extends(older) && older.IsOr(id) && effect < EFFECTS
    requires older.ors[id].tag == ANDS && older.ValidOr(id)
    requires ItemsOk(pool, scoring, items, multiplier, older.ors[id].key, effect, depth)
    requires (forall n :: 0 <= n < |items| ==> pool.IsOr(items[n].id)) && EntriesAnds(pool1, c)
    requires forall t :: CountItems(pool, items, t) == CountEntries(pool1, c, t)
    requires forall t :: CountEntries(pool1, c, t) ==
               if scoring.SetPoints(t, multiplier) >= min then CountAnds(older, id, older.ors[id].daughters, t) else 0
    ensures IsSplit(older, pool, scoring, id, items, multiplier, effect, depth, min)
  {
    hide CountAnds, CountItems, CountEntries, ItemsOk, Scoring.SetPoints;
    assert forall t :: CountOr(older, id, t) == CountAnds(older, id, older.ors[id].daughters, t);
  }

  lemma {:induction false} ForestOfItems(pool: Pool, items: seq<TempOr>, ids: seq<int>, t: seq<int>)
    requires pool.Valid() && (forall n :: 0 <= n < |items| ==> pool.IsOr(items[n].id))
    requires |ids| == |items| && forall n :: 0 <= n < |ids| ==> ids[n] == items[n].id
    ensures CountForest(pool, ids, t) == CountItems(pool, items, t)
  {
    hide CountOr;
    if ids != [] {
      ForestOfItems(pool, items[1..], ids[1..], t);
    }
  }

  lemma {:induction false} NoCheapItems(pool: Pool, scoring: Scoring, items: seq<TempOr>, multiplier: int, key: Signature,
                                        effect: nat, depth: nat, min: int, t: seq<int>)
    requires pool.Valid() && effect < EFFECTS && ItemsOk(pool, scoring, items, multiplier, key, effect, depth)
    requires (forall n :: 0 <= n < |items| ==> items[n].points >= min) && scoring.SetPoints(t, multiplier) < min
    ensures CountItems(pool, items, t) == 0
  {
    hide CountOr, Scoring.SetPoints;
    if items != [] {
      assert ItemOk(pool, scoring, items[0], multiplier, key, effect, depth);
      assert ItemsOk(pool, scoring, items[1..], multiplier, key, effect, depth);
      NoCheapItems(pool, scoring, items[1..], multiplier, key, effect, depth, min, t);
    }
  }

  lemma AfterSplit(older: Pool, pool: Pool, scoring: Scoring, id: int, items: seq<TempOr>,
                   multiplier: int, effect: nat, depth: nat, min: int)
    requires older.Valid() && pool.Valid() && older.IsOr(id) && effect < EFFECTS
    requires IsSplit(older, pool, scoring, id, items, multiplier, effect, depth, min)
    requires forall n :: 0 <= n < |items| ==> items[n].points >= min
    requires forall i, j :: 0 <= i < j < |items| ==> items[i].points != items[j].points
    ensures pool.Extends(older)
    ensures var ids := seq(|items|, n requires 0 <= n < |items| => items[n].id);
      && (forall n :: 0 <= n < |ids| ==> Refined(older, pool, scoring, id, ids[n], multiplier, effect, depth, min))
      && OneTreeEach(pool, scoring, ids, multiplier)
      && forall t :: CountForest(pool, ids, t) == if scoring.SetPoints(t, multiplier) >= min then CountOr(older, id, t) else 0
  {
    hide CountOr, CountItems, CountForest, Scoring.SetPoints;
    var key := older.ors[id].key;
    var ids := seq(|items|, n requires 0 <= n < |items| => items[n].id);
    ItemsAreOrs(pool, scoring, items, multiplier, key, effect, depth);
    forall n | 0 <= n < |ids|
      ensures Refined(older, pool, scoring, id, ids[n], multiplier, effect, depth, min)
    {
      assert ItemOk(pool, scoring, items[n], multiplier, key, effect, depth);
    }
    ItemsApart(pool, scoring, items, ids, multiplier, key, effect, depth);
    forall t
      ensures CountForest(pool, ids, t) == if scoring.SetPoints(t, multiplier) >= min then CountOr(older, id, t) else 0
    {
      ForestOfItems(pool, items, ids, t);
      if scoring.SetPoints(t, multiplier) < min {
        NoCheapItems(pool, scoring, items, multiplier, key, effect, depth, min, t);
      }
    }
  }

  lemma ItemsApart(pool: Pool, scoring: Scoring, items: seq<TempOr>, ids: seq<int>, multiplier: int, key: Signature, effect: nat,
                   depth: nat)
    requires pool.Valid() && effect < EFFECTS && ItemsOk(pool, scoring, items, multiplier, key, effect, depth)
    requires |ids| == |items| && forall n :: 0 <= n < |ids| ==> ids[n] == items[n].id && pool.IsOr(ids[n])
    requires forall i, j :: 0 <= i < j < |items| ==> items[i].points != items[j].points
    ensures OneTreeEach(pool, scoring, ids, multiplier)
  {
    hide CountOr, CountForest, Scoring.SetPoints, HasDepth, AddPoints;
    forall n, t, u |
      && 0 <= n < |ids| && TreeHas(pool, ids[n], t) && CountForest(pool, ids, u) > 0
      && scoring.SetPoints(t, multiplier) == scoring.SetPoints(u, multiplier)
      ensures TreeHas(pool, ids[n], u)
    {
      var k := CountForestSome(pool, ids, u);
      assert ItemOk(pool, scoring, items[n], multiplier, key, effect, depth);
      assert ItemOk(pool, scoring, items[k], multiplier, key, effect, depth);
    }
  }
}
