/** How often the trees of a stage list an armor set. */
module RootCounts {
  import opened Signatures
  import opened SlotRecurrence
  import opened Datasets
  import opened NodePools
  import opened Enumerations
  import opened Unpackers
  import opened TreeLists
  import opened Stats
  import opened JewelPruners
  import opened RawSets

  /** How often the trees that have a candidate list it. */
  ghost function KeptCount(pool: Pool, classes: Classes, inverse: Signature, roots: seq<TreeRoot>, t: seq<int>): nat
    requires pool.Valid()
  {
    if roots == [] then 0
    else OneKept(pool, classes, inverse, roots[0], t) + KeptCount(pool, classes, inverse, roots[1..], t)
  }

  ghost function OneKept(pool: Pool, classes: Classes, inverse: Signature, root: TreeRoot, t: seq<int>): nat
    requires pool.Valid()
  {
    if pool.IsOr(root.id) && !Hopeless(pool, classes, inverse, root) then CountOr(pool, root.id, t) else 0
  }

  /** A tree with both armor sets has the jewel key among its candidates. */
  ghost predicate Prunes(pool: Pool, classes: Classes, inverse: Signature, roots: seq<TreeRoot>, t: seq<int>, u: seq<int>, jewelKey: Signature)
    requires pool.Valid()
  {
    exists n :: 0 <= n < |roots| && HasBoth(pool, roots[n], t, u) && IsCandidate(pool, classes, inverse, roots[n], jewelKey)
  }

  lemma {:induction false} KeptCountAppend(pool: Pool, classes: Classes, inverse: Signature, roots: seq<TreeRoot>, n: nat, t: seq<int>)
    requires pool.Valid() && n < |roots|
    ensures KeptCount(pool, classes, inverse, roots[..n + 1], t)
         == KeptCount(pool, classes, inverse, roots[..n], t) + OneKept(pool, classes, inverse, roots[n], t)
  {
    hide OneKept, Pool.Valid;
    if n == 0 {
      assert roots[..1][1..] == [] && roots[..0] == [];
    } else {
      assert roots[..n + 1][1..] == roots[1..][..n] && roots[..n][1..] == roots[1..][..n - 1];
      KeptCountAppend(pool, classes, inverse, roots[1..], n - 1, t);
    }
  }

  /** Trees without candidates add nothing. */
  lemma {:induction false} KeptCountSkip(pool: Pool, classes: Classes, inverse: Signature, roots: seq<TreeRoot>, m: nat, n: nat, t: seq<int>)
    requires pool.Valid() && m <= n <= |roots| && AllHopeless(pool, classes, inverse, roots[m..n])
    ensures KeptCount(pool, classes, inverse, roots[..n], t) == KeptCount(pool, classes, inverse, roots[..m], t)
    decreases n - m
  {
    hide CountOr, Pool.Valid, Hopeless;
    if m < n {
      assert roots[m..n][n - 1 - m] == roots[n - 1];
      assert roots[m..n - 1] == roots[m..n][..n - 1 - m];
      KeptCountSkip(pool, classes, inverse, roots, m, n - 1, t);
      KeptCountAppend(pool, classes, inverse, roots, n - 1, t);
    }
  }

  /** Pruning lists nothing more often than before. */
  lemma {:induction false} KeptCountLess(pool: Pool, classes: Classes, inverse: Signature, roots: seq<TreeRoot>, t: seq<int>)
    requires pool.Valid()
    ensures KeptCount(pool, classes, inverse, roots, t) <= CountRoots(pool, roots, t)
  {
    hide CountOr, Pool.Valid, Hopeless;
    if roots != [] {
      assert Ids(roots)[1..] == Ids(roots[1..]);
      KeptCountLess(pool, classes, inverse, roots[1..], t);
    }
  }

  lemma PrunesAppend(pool: Pool, classes: Classes, inverse: Signature, roots: seq<TreeRoot>, n: nat, t: seq<int>, u: seq<int>, jewelKey: Signature)
    requires pool.Valid() && n < |roots|
    ensures Prunes(pool, classes, inverse, roots[..n + 1], t, u, jewelKey) <==>
      || Prunes(pool, classes, inverse, roots[..n], t, u, jewelKey)
      || (HasBoth(pool, roots[n], t, u) && IsCandidate(pool, classes, inverse, roots[n], jewelKey))
  {
    hide HasBoth, IsCandidate, Pool.Valid;
    var less, more := roots[..n], roots[..n + 1];
    if i :| 0 <= i < n && HasBoth(pool, less[i], t, u) && IsCandidate(pool, classes, inverse, less[i], jewelKey) {
      assert more[i] == less[i];
    }
    if HasBoth(pool, roots[n], t, u) && IsCandidate(pool, classes, inverse, roots[n], jewelKey) {
      assert more[n] == roots[n];
    }
    if i :| 0 <= i <= n && HasBoth(pool, more[i], t, u) && IsCandidate(pool, classes, inverse, more[i], jewelKey) {
      assert i < n ==> less[i] == more[i];
    }
  }

  lemma {:induction false} PrunesSkip(pool: Pool, classes: Classes, inverse: Signature, roots: seq<TreeRoot>, m: nat, n: nat, t: seq<int>,
                                      u: seq<int>, jewelKey: Signature)
    requires pool.Valid() && m <= n <= |roots| && AllHopeless(pool, classes, inverse, roots[m..n])
    ensures Prunes(pool, classes, inverse, roots[..n], t, u, jewelKey) <==> Prunes(pool, classes, inverse, roots[..m], t, u, jewelKey)
    decreases n - m
  {
    hide HasBoth, IsCandidate, Pool.Valid;
    if m < n {
      assert roots[m..n][n - 1 - m] == roots[n - 1];
      assert roots[m..n - 1] == roots[m..n][..n - 1 - m];
      PrunesSkip(pool, classes, inverse, roots, m, n - 1, t, u, jewelKey);
      PrunesAppend(pool, classes, inverse, roots, n - 1, t, u, jewelKey);
    }
  }

  // ---------- Unpacked sets ----------

  /** How often a list of unpacked sets has the armors `t`. */
  function CountRaws(raws: seq<RawArmorSet>, t: seq<int>): nat {
    if raws == [] then 0 else (if raws[0].ids == t then 1 else 0) + CountRaws(raws[1..], t)
  }

  lemma {:induction false} CountRawsConcat(a: seq<RawArmorSet>, b: seq<RawArmorSet>, t: seq<int>)
    ensures CountRaws(a + b, t) == CountRaws(a, t) + CountRaws(b, t)
  {
    if a == [] {
      assert a + b == b;
    } else {
      assert (a + b)[1..] == a[1..] + b;
      CountRawsConcat(a[1..], b, t);
    }
  }

  lemma {:induction false} WithKeysCount(sets: seq<seq<int>>, keys: seq<Signature>, t: seq<int>)
    ensures CountRaws(WithKeys(sets, keys), t) == multiset(sets)[t]
  {
    if sets != [] {
      assert WithKeys(sets, keys)[1..] == WithKeys(sets[1..], keys);
      assert sets == [sets[0]] + sets[1..];
      WithKeysCount(sets[1..], keys, t);
    }
  }

  /** Unpacking yields every armor set as often as the trees list it. */
  lemma {:induction false} UnpackedCount(pool: Pool, roots: seq<TreeRoot>, t: seq<int>)
    requires pool.Valid() && RootsOk(pool, roots)
    ensures CountRaws(SetsOfRoots(pool, roots), t) == CountRoots(pool, roots, t)
  {
    hide CountOr, EnumOr, HasDepth, Pool.Valid;
    if roots != [] {
      var root := roots[0];
      FirstRoot(pool, roots);
      assert Ids(roots)[1..] == Ids(roots[1..]);
      UnpackedCount(pool, roots[1..], t);
      var first := WithKeys(EnumOr(pool, root.id), root.jewelKeys);
      CountRawsConcat(first, SetsOfRoots(pool, roots[1..]), t);
      WithKeysCount(EnumOr(pool, root.id), root.jewelKeys, t);
      EnumOrCount(pool, root.id, t);
    }
  }

  lemma {:induction false} DefendedCount(data: Data, raws: seq<RawArmorSet>, min: int, t: seq<int>)
    requires AllHaveArmors(data, raws)
    ensures CountRaws(Defended(data, raws, min), t)
         == if AreArmors(data, t) && Defense(data, t) >= min then CountRaws(raws, t) else 0
  {
    hide Defense;
    if raws != [] {
      assert AreArmors(data, raws[0].ids);
      DefendedCount(data, raws[1..], min, t);
      CountRawsConcat(if Defense(data, raws[0].ids) >= min then [raws[0]] else [], Defended(data, raws[1..], min), t);
    }
  }
}
