/** The armor sets of a tree, in the order in which they are unpacked. */
module Enumerations {
  import opened NodePools

  ghost function Prefixed(prefix: seq<int>, sets: seq<seq<int>>): seq<seq<int>> {
    seq(|sets|, n requires 0 <= n < |sets| => prefix + sets[n])
  }

  /** Every armor, followed by every one of the sets. */
  ghost function PairUp(armors: seq<int>, sets: seq<seq<int>>): seq<seq<int>> {
    if armors == [] then [] else Prefixed([armors[0]], sets) + PairUp(armors[1..], sets)
  }

  ghost function Singles(armors: seq<int>): seq<seq<int>> {
    seq(|armors|, n requires 0 <= n < |armors| => [armors[n]])
  }

  ghost function EnumOr(pool: Pool, id: int): seq<seq<int>>
    requires pool.Valid() && pool.IsOr(id)
    decreases id, 1, 0
  {
    var node := pool.ors[id];
    if node.tag == ARMORS then Singles(node.daughters)
    else assert pool.ValidOr(id); EnumAnds(pool, id, node.daughters)
  }

  ghost function EnumAnds(pool: Pool, bound: int, ds: seq<int>): seq<seq<int>>
    requires pool.Valid() && (forall n :: 0 <= n < |ds| ==> pool.IsAnd(ds[n], bound))
    decreases bound, 0, |ds|
  {
    if ds == [] then []
    else
      assert pool.IsAnd(ds[0], bound);
      var node := pool.ands[ds[0]];
      PairUp(pool.ors[node.left].daughters, EnumOr(pool, node.right)) + EnumAnds(pool, bound, ds[1..])
  }

  // ---------- The enumeration lists what the tree stands for ----------

  lemma {:induction false} PrefixedCount(a: int, sets: seq<seq<int>>, t: seq<int>)
    ensures multiset(Prefixed([a], sets))[t] == if t != [] && t[0] == a then multiset(sets)[t[1..]] else 0
  {
    if sets != [] {
      var front, last := sets[..|sets| - 1], sets[|sets| - 1];
      assert sets == front + [last];
      PrefixedCount(a, front, t);
      assert Prefixed([a], sets) == Prefixed([a], front) + [[a] + last];
      assert ([a] + last)[1..] == last;
      assert t != [] && t[0] == a ==> t == [a] + t[1..];
    }
  }

  lemma {:induction false} PairUpCount(armors: seq<int>, sets: seq<seq<int>>, t: seq<int>)
    ensures multiset(PairUp(armors, sets))[t]
         == if t == [] then 0 else Pairs(multiset(armors)[t[0]], multiset(sets)[t[1..]])
  {
    if armors != [] {
      PrefixedCount(armors[0], sets, t);
      PairUpCount(armors[1..], sets, t);
      assert armors == [armors[0]] + armors[1..];
      if t != [] {
        OnePairMore(multiset(armors[1..])[t[0]], multiset(sets)[t[1..]]);
      }
    }
  }

  lemma OnePairMore(a: nat, b: nat)
    ensures Pairs(a + 1, b) == Pairs(a, b) + b && Pairs(0, b) == 0
  {
  }

  /** Every armor set is enumerated as often as the tree lists it. */
  lemma {:induction false} EnumOrCount(pool: Pool, id: int, t: seq<int>)
    requires pool.Valid() && pool.IsOr(id)
    ensures multiset(EnumOr(pool, id))[t] == CountOr(pool, id, t)
    decreases id, 1, 0
  {
    var node := pool.ors[id];
    if node.tag == ARMORS {
      SinglesCount(node.daughters, t);
    } else {
      assert pool.ValidOr(id);
      EnumAndsCount(pool, id, node.daughters, t);
    }
  }

  lemma {:induction false} SinglesCount(armors: seq<int>, t: seq<int>)
    ensures multiset(Singles(armors))[t] == if |t| == 1 then multiset(armors)[t[0]] else 0
  {
    if armors != [] {
      var front, last := armors[..|armors| - 1], armors[|armors| - 1];
      assert armors == front + [last];
      SinglesCount(front, t);
      assert Singles(armors) == Singles(front) + [[last]];
      assert |t| == 1 ==> t == [t[0]];
    }
  }

  lemma {:induction false} EnumAndsCount(pool: Pool, bound: int, ds: seq<int>, t: seq<int>)
    requires pool.Valid() && (forall n :: 0 <= n < |ds| ==> pool.IsAnd(ds[n], bound))
    ensures multiset(EnumAnds(pool, bound, ds))[t] == CountAnds(pool, bound, ds, t)
    decreases bound, 0, |ds|
  {
    hide Pairs;
    if ds != [] {
      assert pool.IsAnd(ds[0], bound);
      var node := pool.ands[ds[0]];
      PairUpCount(pool.ors[node.left].daughters, EnumOr(pool, node.right), t);
      if t != [] {
        EnumOrCount(pool, node.right, t[1..]);
      }
      EnumAndsCount(pool, bound, ds[1..], t);
    }
  }

  // ---------- Appending nodes changes no order ----------

  /** A tree lists its armor sets in the same order, whatever nodes are appended to the pool. */
  lemma {:induction false} EnumOrStable(older: Pool, pool: Pool, id: int)
    requires older.Valid() && pool.Valid() && pool.Extends(older) && older.IsOr(id)
    ensures pool.IsOr(id) && EnumOr(pool, id) == EnumOr(older, id)
    decreases id, 1, 0
  {
    var node := older.ors[id];
    assert pool.ors[id] == node;
    if node.tag == ANDS {
      assert older.ValidOr(id);
      EnumAndsStable(older, pool, id, node.daughters);
    }
  }

  lemma {:induction false} EnumAndsStable(older: Pool, pool: Pool, bound: int, ds: seq<int>)
    requires older.Valid() && pool.Valid() && pool.Extends(older) && bound <= |older.ors|
    requires forall n :: 0 <= n < |ds| ==> older.IsAnd(ds[n], bound)
    ensures forall n :: 0 <= n < |ds| ==> pool.IsAnd(ds[n], bound)
    ensures EnumAnds(pool, bound, ds) == EnumAnds(older, bound, ds)
    decreases bound, 0, |ds|
  {
    hide PairUp;
    forall n | 0 <= n < |ds|
      ensures pool.IsAnd(ds[n], bound) && pool.ands[ds[n]] == older.ands[ds[n]]
    {
      assert older.IsAnd(ds[n], bound);
    }
    if ds != [] {
      assert older.IsAnd(ds[0], bound) && pool.IsAnd(ds[0], bound);
      var node := older.ands[ds[0]];
      EnumOrStable(older, pool, node.right);
      EnumAndsStable(older, pool, bound, ds[1..]);
    }
  }
}
