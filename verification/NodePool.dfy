/** The append-only OR/AND forest, and the armor sets that a tree stands for. */
module NodePools {
  import opened Signatures

  datatype Tag = ANDS | ARMORS

  /** An OR of armors (`daughters` are armor ids) or of ANDs (`daughters` are AND ids). */
  datatype OrNode = OrNode(key: Signature, tag: Tag, daughters: seq<int>)

  /** One armor of the left OR, and one armor set of the right OR. */
  datatype AndNode = AndNode(left: int, right: int)

  datatype Pool = Pool(ors: seq<OrNode>, ands: seq<AndNode>)
  {
    predicate IsOr(id: int) { 0 <= id < |ors| }

    /** An AND below OR `bound`: both children are older than that OR. */
    predicate IsAnd(d: int, bound: int) {
      && 0 <= d < |ands| && 0 <= ands[d].left < bound && 0 <= ands[d].right < bound
      && ands[d].left < |ors| && ands[d].right < |ors| && ors[ands[d].left].tag == ARMORS
    }

    /** Every OR has a daughter, and the children of its ANDs are older. */
    ghost predicate Valid() {
      forall id :: IsOr(id) ==> ValidOr(id)
    }

    ghost predicate ValidOr(id: int)
      requires IsOr(id)
    {
      && ors[id].daughters != []
      && (ors[id].tag == ANDS ==> forall n :: 0 <= n < |ors[id].daughters| ==> IsAnd(ors[id].daughters[n], id))
    }

    /** Nodes are only ever appended. */
    ghost predicate Extends(older: Pool) {
      older.ors <= ors && older.ands <= ands
    }
  }

  // ---------- The armor sets of a tree ----------

  /** The number of pairs. */
  function Pairs(a: nat, b: nat): nat { a * b }

  lemma PairsDistribute(a: nat, b: nat, c: nat)
    ensures Pairs(a + b, c) == Pairs(a, c) + Pairs(b, c)
    ensures Pairs(c, a + b) == Pairs(c, a) + Pairs(c, b)
    ensures Pairs(a, 0) == Pairs(0, a) == 0
  {
    assert (a + b) * c == a * c + b * c;
  }

  /** How often the tree lists the armor set `t`. */
  ghost function CountOr(pool: Pool, id: int, t: seq<int>): nat
    requires pool.Valid() && pool.IsOr(id)
    decreases id, 1, 0
  {
    var node := pool.ors[id];
    if node.tag == ARMORS then (if |t| == 1 then multiset(node.daughters)[t[0]] else 0)
    else assert pool.ValidOr(id); CountAnds(pool, id, node.daughters, t)
  }

  /** How often the ANDs in `ds` list it, all in all. */
  ghost function CountAnds(pool: Pool, bound: int, ds: seq<int>, t: seq<int>): nat
    requires pool.Valid() && (forall n :: 0 <= n < |ds| ==> pool.IsAnd(ds[n], bound))
    decreases bound, 0, |ds|
  {
    if ds == [] then 0
    else
      assert pool.IsAnd(ds[0], bound);
      var node := pool.ands[ds[0]];
      (if t == [] then 0 else Pairs(multiset(pool.ors[node.left].daughters)[t[0]], CountOr(pool, node.right, t[1..])))
      + CountAnds(pool, bound, ds[1..], t)
  }

  ghost function CountAnd(pool: Pool, d: int, t: seq<int>): nat
    requires pool.Valid() && pool.IsAnd(d, |pool.ors|)
  {
    var node := pool.ands[d];
    if t == [] then 0 else Pairs(multiset(pool.ors[node.left].daughters)[t[0]], CountOr(pool, node.right, t[1..]))
  }

  lemma {:induction false} CountAndsConcat(pool: Pool, bound: int, a: seq<int>, b: seq<int>, t: seq<int>)
    requires pool.Valid() && bound <= |pool.ors|
    requires forall n :: 0 <= n < |a| ==> pool.IsAnd(a[n], bound)
    requires forall n :: 0 <= n < |b| ==> pool.IsAnd(b[n], bound)
    ensures forall n :: 0 <= n < |a + b| ==> pool.IsAnd((a + b)[n], bound)
    ensures CountAnds(pool, bound, a + b, t) == CountAnds(pool, bound, a, t) + CountAnds(pool, bound, b, t)
  {
    hide Pairs, Pool.Valid;
    if a == [] {
      assert a + b == b;
    } else {
      assert (a + b)[1..] == a[1..] + b;
      CountAndsConcat(pool, bound, a[1..], b, t);
    }
  }

  lemma CountAndsOne(pool: Pool, bound: int, d: int, t: seq<int>)
    requires pool.Valid() && bound <= |pool.ors| && pool.IsAnd(d, bound)
    ensures CountAnds(pool, bound, [d], t) == CountAnd(pool, d, t)
  {
    hide Pairs;
    assert [d][1..] == [];
  }

  // ---------- Appending changes no tree ----------

  lemma {:induction false} CountOrStable(older: Pool, pool: Pool, id: int, t: seq<int>)
    requires older.Valid() && pool.Valid() && pool.Extends(older) && older.IsOr(id)
    ensures CountOr(pool, id, t) == CountOr(older, id, t)
    decreases id, 1, 0
  {
    assert pool.ors[id] == older.ors[id];
    if older.ors[id].tag == ANDS {
      assert older.ValidOr(id);
      CountAndsStable(older, pool, id, id, older.ors[id].daughters, t);
    }
  }

  /** The bound only serves termination. */
  lemma {:induction false} CountAndsStable(older: Pool, pool: Pool, bound: int, bound': int, ds: seq<int>, t: seq<int>)
    requires older.Valid() && pool.Valid() && pool.Extends(older) && bound <= bound'
    requires forall n :: 0 <= n < |ds| ==> older.IsAnd(ds[n], bound)
    ensures forall n :: 0 <= n < |ds| ==> pool.IsAnd(ds[n], bound')
    ensures CountAnds(pool, bound', ds, t) == CountAnds(older, bound, ds, t)
    decreases bound, 0, |ds|
  {
    hide Pairs, Pool.Valid;
    if ds != [] {
      assert older.IsAnd(ds[0], bound);
      var node := older.ands[ds[0]];
      assert pool.ands[ds[0]] == node && pool.ors[node.left] == older.ors[node.left];
      if t != [] {
        CountOrStable(older, pool, node.right, t[1..]);
      }
      CountAndsStable(older, pool, bound, bound', ds[1..], t);
    }
  }

  lemma CountAndStable(older: Pool, pool: Pool, d: int, t: seq<int>)
    requires older.Valid() && pool.Valid() && pool.Extends(older) && older.IsAnd(d, |older.ors|)
    ensures pool.IsAnd(d, |pool.ors|) && CountAnd(pool, d, t) == CountAnd(older, d, t)
  {
    var node := older.ands[d];
    assert pool.ands[d] == node && pool.ors[node.left] == older.ors[node.left];
    if t != [] {
      CountOrStable(older, pool, node.right, t[1..]);
    }
  }

  // ---------- No tree is empty ----------

  lemma {:induction false} SomeSet(pool: Pool, id: int) returns (t: seq<int>)
    requires pool.Valid() && pool.IsOr(id)
    ensures t != [] && CountOr(pool, id, t) > 0
    decreases id
  {
    assert pool.ValidOr(id);
    var node := pool.ors[id];
    if node.tag == ARMORS {
      t := [node.daughters[0]];
    } else {
      var d := node.daughters[0];
      assert pool.IsAnd(d, id);
      var rest := SomeSet(pool, pool.ands[d].right);
      assert pool.ValidOr(pool.ands[d].left);
      t := [pool.ors[pool.ands[d].left].daughters[0]] + rest;
      assert t[1..] == rest;
    }
  }

  /** A set of the right child, after an armor of the left one, is a set of the OR. */
  lemma {:induction false} CountAndsMember(pool: Pool, bound: int, ds: seq<int>, n: nat, t: seq<int>)
    requires pool.Valid() && bound <= |pool.ors| && n < |ds|
    requires forall n :: 0 <= n < |ds| ==> pool.IsAnd(ds[n], bound)
    requires pool.IsAnd(ds[n], bound) && CountAnd(pool, ds[n], t) > 0
    ensures CountAnds(pool, bound, ds, t) > 0
  {
    hide Pairs;
    if n > 0 {
      CountAndsMember(pool, bound, ds[1..], n - 1, t);
    }
  }

  lemma {:induction false} CountAndsSome(pool: Pool, bound: int, ds: seq<int>, t: seq<int>) returns (n: nat)
    requires pool.Valid() && bound <= |pool.ors|
    requires forall n :: 0 <= n < |ds| ==> pool.IsAnd(ds[n], bound)
    requires CountAnds(pool, bound, ds, t) > 0
    ensures n < |ds| && CountAnd(pool, ds[n], t) > 0
  {
    hide Pairs;
    if CountAnd(pool, ds[0], t) > 0 {
      n := 0;
    } else {
      var k := CountAndsSome(pool, bound, ds[1..], t);
      n := k + 1;
    }
  }

  /** An armor of the left child and a set of the right child make a set of the AND. */
  lemma CountAndOf(pool: Pool, d: int, armor: int, rest: seq<int>)
    requires pool.Valid() && pool.IsAnd(d, |pool.ors|)
    ensures CountAnd(pool, d, [armor] + rest)
         == Pairs(multiset(pool.ors[pool.ands[d].left].daughters)[armor], CountOr(pool, pool.ands[d].right, rest))
    ensures CountAnd(pool, d, [armor] + rest) > 0 <==>
            armor in pool.ors[pool.ands[d].left].daughters && CountOr(pool, pool.ands[d].right, rest) > 0
  {
    assert ([armor] + rest)[1..] == rest;
    PairsPositive(multiset(pool.ors[pool.ands[d].left].daughters)[armor], CountOr(pool, pool.ands[d].right, rest));
  }

  lemma PairsPositive(a: nat, b: nat)
    ensures Pairs(a, b) > 0 <==> a > 0 && b > 0
  {
  }

  // ---------- Depth ----------

  /** Every set of the tree has exactly `depth` armors. */
  ghost predicate HasDepth(pool: Pool, id: int, depth: nat)
    requires pool.Valid() && pool.IsOr(id)
    decreases depth
  {
    depth > 0 &&
    if depth == 1 then pool.ors[id].tag == ARMORS
    else
      && pool.ors[id].tag == ANDS
      && forall n :: 0 <= n < |pool.ors[id].daughters| ==>
           && pool.IsAnd(pool.ors[id].daughters[n], id)
           && HasDepth(pool, pool.ands[pool.ors[id].daughters[n]].right, depth - 1)
  }

  lemma {:induction false} DepthStable(older: Pool, pool: Pool, id: int, depth: nat)
    requires older.Valid() && pool.Valid() && pool.Extends(older) && older.IsOr(id)
    requires HasDepth(older, id, depth)
    ensures HasDepth(pool, id, depth)
    decreases depth
  {
    assert pool.ors[id] == older.ors[id];
    if depth > 1 {
      forall n | 0 <= n < |pool.ors[id].daughters|
        ensures pool.IsAnd(pool.ors[id].daughters[n], id)
        ensures HasDepth(pool, pool.ands[pool.ors[id].daughters[n]].right, depth - 1)
      {
        var d := older.ors[id].daughters[n];
        assert older.IsAnd(d, id) && pool.ands[d] == older.ands[d];
        assert pool.ors[pool.ands[d].left] == older.ors[older.ands[d].left];
        DepthStable(older, pool, older.ands[d].right, depth - 1);
      }
    }
  }

  // ---------- The pool ----------

  class NodePool {
    var ors: seq<OrNode>
    var ands: seq<AndNode>

    function State(): Pool
      reads this
    {
      Pool(ors, ands)
    }

    constructor ()
      ensures State() == Pool([], []) && State().Valid()
    {
      ors, ands := [], [];
    }

    method MakeOR(tag: Tag, key: Signature, daughters: seq<int>) returns (id: int)
      requires State().Valid() && daughters != []
      requires tag == ANDS ==> forall n :: 0 <= n < |daughters| ==> State().IsAnd(daughters[n], |ors|)
      modifies this
      ensures State().Valid() && id == |old(ors)|
      ensures ands == old(ands) && ors == old(ors) + [OrNode(key, tag, daughters)]
      ensures State().Extends(old(State())) && State().IsOr(id)
    {
      ghost var older := State();
      ors := ors + [OrNode(key, tag, daughters)];
      id := |ors| - 1;
      ValidAppended(older, State());
    }

    method MakeAnd(left: int, right: int) returns (id: int)
      requires State().Valid() && State().IsOr(left) && State().IsOr(right) && ors[left].tag == ARMORS
      modifies this
      ensures State().Valid() && id == |old(ands)|
      ensures ors == old(ors) && ands == old(ands) + [AndNode(left, right)]
      ensures State().Extends(old(State())) && State().IsAnd(id, |ors|)
    {
      ghost var older := State();
      ands := ands + [AndNode(left, right)];
      id := |ands| - 1;
      ValidAppended(older, State());
    }
  }

  lemma ValidAppended(older: Pool, pool: Pool)
    requires older.Valid() && pool.Extends(older) && |pool.ors| <= |older.ors| + 1
    requires |pool.ors| == |older.ors| + 1 ==> pool.ValidOr(|older.ors|)
    ensures pool.Valid()
  {
    forall id | pool.IsOr(id)
      ensures pool.ValidOr(id)
    {
      if older.IsOr(id) {
        assert older.ValidOr(id) && pool.ors[id] == older.ors[id];
        forall n | pool.ors[id].tag == ANDS && 0 <= n < |pool.ors[id].daughters|
          ensures pool.IsAnd(pool.ors[id].daughters[n], id)
        {
          assert older.IsAnd(older.ors[id].daughters[n], id);
        }
      }
    }
  }
}
