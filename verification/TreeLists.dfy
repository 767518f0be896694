/** Lists of trees with jewel keys: which armor sets they list, how often, and with which keys. */
module TreeLists {
  import opened Signatures
  import opened NodePools
  import opened AndGroups
  import opened Unpackers

  function Ids(roots: seq<TreeRoot>): (ids: seq<int>)
    ensures |ids| == |roots| && forall n :: 0 <= n < |roots| ==> ids[n] == roots[n].id
  {
    if roots == [] then [] else [roots[0].id] + Ids(roots[1..])
  }

  lemma {:induction false} IdsConcat(a: seq<TreeRoot>, b: seq<TreeRoot>)
    ensures Ids(a + b) == Ids(a) + Ids(b)
  {
    if a == [] {
      assert a + b == b;
    } else {
      assert (a + b)[1..] == a[1..] + b;
      IdsConcat(a[1..], b);
    }
  }

  ghost predicate AllOrs(pool: Pool, roots: seq<TreeRoot>) {
    forall n :: 0 <= n < |roots| ==> pool.IsOr(roots[n].id)
  }

  /** How often the trees list `t`, all in all. */
  ghost function CountRoots(pool: Pool, roots: seq<TreeRoot>, t: seq<int>): nat
    requires pool.Valid()
  {
    CountForest(pool, Ids(roots), t)
  }

  ghost predicate HasBoth(pool: Pool, root: TreeRoot, t: seq<int>, u: seq<int>)
    requires pool.Valid()
  {
    TreeHas(pool, root.id, t) && TreeHas(pool, root.id, u)
  }

  /** Some tree has both armor sets, and the jewel key. */
  ghost predicate Carries(pool: Pool, roots: seq<TreeRoot>, t: seq<int>, u: seq<int>, jewelKey: Signature)
    requires pool.Valid()
  {
    exists n :: 0 <= n < |roots| && HasBoth(pool, roots[n], t, u) && jewelKey in roots[n].jewelKeys
  }

  lemma CountRootsAppend(pool: Pool, roots: seq<TreeRoot>, root: TreeRoot, t: seq<int>)
    requires pool.Valid() && pool.IsOr(root.id)
    ensures CountRoots(pool, roots + [root], t) == CountRoots(pool, roots, t) + CountOr(pool, root.id, t)
  {
    hide CountOr, CountForest, Pool.Valid;
    IdsConcat(roots, [root]);
    assert Ids([root]) == [root.id];
    CountForestAppend(pool, Ids(roots), root.id, t);
  }

  lemma CountNoRoots(pool: Pool, t: seq<int>)
    requires pool.Valid()
    ensures CountRoots(pool, [], t) == 0
  {
  }

  lemma CountRootsFirst(pool: Pool, roots: seq<TreeRoot>, t: seq<int>)
    requires pool.Valid() && roots != []
    ensures CountRoots(pool, roots, t) == CountRoots(pool, [roots[0]], t) + CountRoots(pool, roots[1..], t)
  {
    hide CountOr, Pool.Valid;
    assert Ids(roots)[1..] == Ids(roots[1..]) && Ids(roots)[0] == roots[0].id;
    assert Ids([roots[0]]) == [roots[0].id];
    FirstOfForest(pool, Ids(roots), t);
  }

  lemma FirstOfForest(pool: Pool, ids: seq<int>, t: seq<int>)
    requires pool.Valid() && ids != []
    ensures CountForest(pool, ids, t) == CountForest(pool, [ids[0]], t) + CountForest(pool, ids[1..], t)
  {
    hide CountOr, Pool.Valid;
    assert [ids[0]][1..] == [];
  }

  lemma CountRootsStable(older: Pool, pool: Pool, roots: seq<TreeRoot>, t: seq<int>)
    requires older.Valid() && pool.Valid() && pool.Extends(older) && AllOrs(older, roots)
    ensures AllOrs(pool, roots) && CountRoots(pool, roots, t) == CountRoots(older, roots, t)
  {
    hide CountOr, CountForest, Pool.Valid;
    CountForestStable(older, pool, Ids(roots), t);
  }

  lemma CarriesAppend(pool: Pool, roots: seq<TreeRoot>, root: TreeRoot, t: seq<int>, u: seq<int>, jewelKey: Signature)
    requires pool.Valid()
    ensures Carries(pool, roots + [root], t, u, jewelKey) <==>
            Carries(pool, roots, t, u, jewelKey) || (HasBoth(pool, root, t, u) && jewelKey in root.jewelKeys)
  {
    hide HasBoth, Pool.Valid;
    var more := roots + [root];
    if n :| 0 <= n < |roots| && HasBoth(pool, roots[n], t, u) && jewelKey in roots[n].jewelKeys {
      assert more[n] == roots[n];
    }
    if HasBoth(pool, root, t, u) && jewelKey in root.jewelKeys {
      assert more[|roots|] == root;
    }
  }

  lemma CarriesStable(older: Pool, pool: Pool, roots: seq<TreeRoot>, t: seq<int>, u: seq<int>, jewelKey: Signature)
    requires older.Valid() && pool.Valid() && pool.Extends(older) && AllOrs(older, roots)
    ensures Carries(pool, roots, t, u, jewelKey) <==> Carries(older, roots, t, u, jewelKey)
  {
    hide CountOr, Pool.Valid;
    forall n | 0 <= n < |roots|
      ensures HasBoth(pool, roots[n], t, u) <==> HasBoth(older, roots[n], t, u)
    {
      CountOrStable(older, pool, roots[n].id, t);
      CountOrStable(older, pool, roots[n].id, u);
    }
  }

  /** Where every tree has a key, a set is listed exactly if it comes with some key. */
  lemma ListedIffCarried(pool: Pool, roots: seq<TreeRoot>, t: seq<int>)
    requires pool.Valid() && forall n :: 0 <= n < |roots| ==> roots[n].jewelKeys != []
    ensures CountRoots(pool, roots, t) > 0 <==> exists jewelKey :: Carries(pool, roots, t, t, jewelKey)
  {
    hide CountOr, CountForest, Pool.Valid;
    if CountRoots(pool, roots, t) > 0 {
      var n := CountForestSome(pool, Ids(roots), t);
      assert HasBoth(pool, roots[n], t, t) && roots[n].jewelKeys[0] in roots[n].jewelKeys;
      assert Carries(pool, roots, t, t, roots[n].jewelKeys[0]);
    }
    if jewelKey :| Carries(pool, roots, t, t, jewelKey) {
      var n :| 0 <= n < |roots| && HasBoth(pool, roots[n], t, t) && jewelKey in roots[n].jewelKeys;
      CountForestMember(pool, Ids(roots), n, t);
    }
  }
}
