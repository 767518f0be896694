/** Merging the forest of one part with the forest of the parts below it. */
module MergeSteps {
  import opened Signatures
  import opened Datasets
  import opened Keys
  import opened NodePools
  import opened TinyMaps
  import opened AndGroups
  import opened FoundationSteps

  // ---------- ANDs by signature ----------

  ghost predicate AndKeyed(pool: Pool, scope: Scope, d: int, key: Signature, depth: nat)
    requires pool.Valid() && scope.Valid()
  {
    && pool.IsAnd(d, |pool.ors|) && depth > 0 && HasDepth(pool, pool.ands[d].right, depth - 1)
    && forall t :: CountAnd(pool, d, t) > 0 ==> scope.HasKey(t, key)
  }

  ghost predicate EntryKeyed(pool: Pool, scope: Scope, entry: (Signature, seq<int>), depth: nat)
    requires pool.Valid() && scope.Valid()
  {
    entry.1 != [] && forall j :: 0 <= j < |entry.1| ==> AndKeyed(pool, scope, entry.1[j], entry.0, depth)
  }

  ghost predicate Keyed(pool: Pool, scope: Scope, c: Container<Signature>, depth: nat)
    requires pool.Valid() && scope.Valid()
  {
    DistinctKeys(c) && forall n :: 0 <= n < |c| ==> EntryKeyed(pool, scope, c[n], depth)
  }

  lemma KeyedAnds(pool: Pool, scope: Scope, c: Container<Signature>, depth: nat)
    requires pool.Valid() && scope.Valid() && Keyed(pool, scope, c, depth)
    ensures EntriesAnds(pool, c)
  {
    forall n, j | 0 <= n < |c| && 0 <= j < |c[n].1|
      ensures pool.IsAnd(c[n].1[j], |pool.ors|)
    {
      assert EntryKeyed(pool, scope, c[n], depth) && AndKeyed(pool, scope, c[n].1[j], c[n].0, depth);
    }
  }

  lemma AndKeyedStable(older: Pool, pool: Pool, scope: Scope, d: int, key: Signature, depth: nat)
    requires older.Valid() && pool.Valid() && pool.Extends(older) && scope.Valid() && AndKeyed(older, scope, d, key, depth)
    ensures AndKeyed(pool, scope, d, key, depth)
  {
    hide CountAnd, Scope.HasKey;
    assert pool.ands[d] == older.ands[d] && pool.ors[older.ands[d].left] == older.ors[older.ands[d].left];
    DepthStable(older, pool, older.ands[d].right, depth - 1);
    forall t
      ensures pool.IsAnd(d, |pool.ors|) && CountAnd(pool, d, t) == CountAnd(older, d, t)
    {
      CountAndStable(older, pool, d, t);
    }
  }

  lemma KeyedStable(older: Pool, pool: Pool, scope: Scope, c: Container<Signature>, depth: nat)
    requires older.Valid() && pool.Valid() && pool.Extends(older) && scope.Valid() && Keyed(older, scope, c, depth)
    ensures Keyed(pool, scope, c, depth) && EntriesAnds(older, c) && EntriesAnds(pool, c)
    ensures forall t :: CountEntries(pool, c, t) == CountEntries(older, c, t)
  {
    hide AndKeyed, CountEntries;
    KeyedAnds(older, scope, c, depth);
    forall n | 0 <= n < |c|
      ensures EntryKeyed(pool, scope, c[n], depth)
    {
      assert EntryKeyed(older, scope, c[n], depth);
      forall j | 0 <= j < |c[n].1|
        ensures AndKeyed(pool, scope, c[n].1[j], c[n].0, depth)
      {
        AndKeyedStable(older, pool, scope, c[n].1[j], c[n].0, depth);
      }
    }
    CountEntriesStable(older, pool, c, []);
    forall t
      ensures CountEntries(pool, c, t) == CountEntries(older, c, t)
    {
      CountEntriesStable(older, pool, c, t);
    }
  }

  lemma KeyedPushed(pool: Pool, scope: Scope, c: Container<Signature>, key: Signature, d: int, depth: nat)
    requires pool.Valid() && scope.Valid() && Keyed(pool, scope, c, depth) && AndKeyed(pool, scope, d, key, depth)
    ensures Keyed(pool, scope, Pushed(c, key, d), depth) && EntriesAnds(pool, c) && EntriesAnds(pool, Pushed(c, key, d))
    ensures pool.IsAnd(d, |pool.ors|)
    ensures forall t :: CountEntries(pool, Pushed(c, key, d), t) == CountEntries(pool, c, t) + CountAnd(pool, d, t)
  {
    hide CountEntries, CountAnd, Pushed;
    var pushed := Pushed(c, key, d);
    KeyedAnds(pool, scope, c, depth);
    assert forall n :: 0 <= n < |c| ==> EntryKeyed(pool, scope, c[n], depth);
    PushedDistinct(c, key, d);
    PushedEntries(c, key, d);
    forall n | 0 <= n < |pushed|
      ensures EntryKeyed(pool, scope, pushed[n], depth)
    {
      if n < |c| {
        assert EntryKeyed(pool, scope, c[n], depth);
      }
    }
    KeyedAnds(pool, scope, pushed, depth);
    forall t
      ensures CountEntries(pool, pushed, t) == CountEntries(pool, c, t) + CountAnd(pool, d, t)
    {
      CountEntriesPushed(pool, c, key, d, t);
    }
  }

  // ---------- One pair of trees ----------

  function MergedKey(left: Signature, right: Signature, isBody: bool): Signature {
    Add(if isBody then BodyRefactor(left, Multiplier(right) + 1) else left, right)
  }

  /** All sets of a new AND have the merged signature. */
  lemma MergedAnd(older: Pool, pool: Pool, scope: Scope, left: int, right: int, part: int, depth: nat, d: int)
    requires older.Valid() && pool.Valid() && pool.Extends(older) && scope.Valid() && depth > 0
    requires TreeOk(older, scope, left, 1) && TreeOk(older, scope, right, depth)
    requires forall a :: CountOr(older, left, [a]) > 0 ==> scope.IsChoice(a, part)
    requires d == |older.ands| && |pool.ands| == d + 1 && pool.ands[d] == AndNode(left, right)
    ensures AndKeyed(pool, scope, d, MergedKey(older.ors[left].key, older.ors[right].key, part == BODY), depth + 1)
  {
    hide BodyRefactor, Add, ArmorSignature;
    var key := MergedKey(older.ors[left].key, older.ors[right].key, part == BODY);
    assert pool.ors[left] == older.ors[left];
    DepthStable(older, pool, right, depth);
    assert pool.IsAnd(d, |pool.ors|);
    forall t | CountAnd(pool, d, t) > 0
      ensures scope.HasKey(t, key)
    {
      MergedSet(older, pool, scope, left, right, part, depth, d, t);
    }
  }

  lemma MergedSet(older: Pool, pool: Pool, scope: Scope, left: int, right: int, part: int, depth: nat, d: int, t: seq<int>)
    requires older.Valid() && pool.Valid() && pool.Extends(older) && scope.Valid() && depth > 0
    requires TreeOk(older, scope, left, 1) && TreeOk(older, scope, right, depth)
    requires forall a :: CountOr(older, left, [a]) > 0 ==> scope.IsChoice(a, part)
    requires pool.IsAnd(d, |pool.ors|) && pool.ands[d] == AndNode(left, right) && CountAnd(pool, d, t) > 0
    ensures scope.HasKey(t, MergedKey(older.ors[left].key, older.ors[right].key, part == BODY))
  {
    hide BodyRefactor, Add, ArmorSignature, HasDepth, CountAnds;
    assert pool.ors[left] == older.ors[left];
    assert t == [t[0]] + t[1..];
    CountAndOf(pool, d, t[0], t[1..]);
    CountOrStable(older, pool, right, t[1..]);
    assert CountOr(older, left, [t[0]]) > 0 by { TagOfOne(older, left); }
    assert scope.HasKey([t[0]], older.ors[left].key) && scope.IsChoice(t[0], part);
    assert scope.HasKey(t[1..], older.ors[right].key);
    forall i | 0 <= i < |t|
      ensures scope.data.IsArmor(t[i])
    {
      if i > 0 {
        assert t[i] == t[1..][i - 1];
      }
    }
  }

  lemma TagOfOne(pool: Pool, id: int)
    requires pool.Valid() && pool.IsOr(id) && HasDepth(pool, id, 1)
    ensures pool.ors[id].tag == ARMORS
  {
  }

  // ---------- All pairs ----------

  /** How often the pairs of a left tree with the right trees list `t`. */
  ghost function RowCount(pool: Pool, left: int, rights: seq<int>, t: seq<int>): nat
    requires pool.Valid() && pool.IsOr(left)
  {
    if t == [] then 0 else Pairs(CountOr(pool, left, [t[0]]), CountForest(pool, rights, t[1..]))
  }

  ghost function ProductCount(pool: Pool, lefts: seq<int>, rights: seq<int>, t: seq<int>): nat
    requires pool.Valid()
  {
    if t == [] then 0 else Pairs(CountForest(pool, lefts, [t[0]]), CountForest(pool, rights, t[1..]))
  }

  lemma ProductStep(pool: Pool, lefts: seq<int>, i: nat, rights: seq<int>, t: seq<int>)
    requires pool.Valid() && i < |lefts| && pool.IsOr(lefts[i])
    ensures ProductCount(pool, lefts[..i + 1], rights, t)
         == ProductCount(pool, lefts[..i], rights, t) + RowCount(pool, lefts[i], rights, t)
  {
    assert lefts[..i + 1] == lefts[..i] + [lefts[i]];
    if t != [] {
      CountForestAppend(pool, lefts[..i], lefts[i], [t[0]]);
      PairsDistribute(CountForest(pool, lefts[..i], [t[0]]), CountOr(pool, lefts[i], [t[0]]), CountForest(pool, rights, t[1..]));
    }
  }

  /** The product of two forests that list everything once lists everything once. */
  lemma ProductOfForests(pool: Pool, scope: Scope, lefts: seq<int>, rights: seq<int>, part: nat, t: seq<int>)
    requires pool.Valid() && scope.Valid()
    requires IsForest(pool, scope, lefts, part, 1) && IsForest(pool, scope, rights, 0, part)
    ensures ProductCount(pool, lefts, rights, t) == if |t| == part + 1 && scope.Chosen(t, 0) then 1 else 0
  {
    hide CountForest, TreeOk;
    if t != [] {
      ChosenOne(scope, t[0], part);
      if |t| == part + 1 {
        assert scope.Chosen(t, 0) <==> scope.IsChoice(t[0], part) && scope.Chosen(t[1..], 0) by {
          ChosenStep(scope, t, part);
        }
      }
      PairsOnes(CountForest(pool, lefts, [t[0]]), CountForest(pool, rights, t[1..]));
    }
  }

  lemma PairsOnes(a: nat, b: nat)
    requires a <= 1 && b <= 1
    ensures Pairs(a, b) == if a == 1 && b == 1 then 1 else 0
  {
  }

  lemma ChosenOne(scope: Scope, a: int, part: int)
    ensures scope.Chosen([a], part) <==> scope.IsChoice(a, part)
  {
    if scope.Chosen([a], part) {
      assert scope.IsChoice([a][0], part + |[a]| - 1 - 0);
    }
  }

  lemma ChosenStep(scope: Scope, t: seq<int>, part: nat)
    requires |t| == part + 1
    ensures scope.Chosen(t, 0) <==> scope.IsChoice(t[0], part) && scope.Chosen(t[1..], 0)
  {
    assert forall i :: 0 < i < |t| ==> t[i] == t[1..][i - 1];
    if scope.Chosen(t, 0) {
      forall i | 0 <= i < |t[1..]|
        ensures scope.IsChoice(t[1..][i], 0 + |t[1..]| - 1 - i)
      {
        assert scope.IsChoice(t[i + 1], 0 + |t| - 1 - (i + 1));
      }
      assert scope.IsChoice(t[0], 0 + |t| - 1 - 0);
    }
    if scope.IsChoice(t[0], part) && scope.Chosen(t[1..], 0) {
      forall i | 0 <= i < |t|
        ensures scope.IsChoice(t[i], 0 + |t| - 1 - i)
      {
        if i > 0 {
          assert scope.IsChoice(t[1..][i - 1], 0 + |t[1..]| - 1 - (i - 1));
        }
      }
    }
  }

  // ---------- One OR for each signature ----------

  /** The first `n` groups have become trees. */
  ghost predicate GroupTrees(pool1: Pool, pool: Pool, scope: Scope, c: Container<Signature>, n: nat, depth: nat, forest: seq<int>)
    requires pool1.Valid() && pool.Valid() && scope.Valid() && n <= |c| && EntriesAnds(pool1, c[..n])
  {
    && |forest| == n
    && (forall i :: 0 <= i < n ==> TreeOk(pool, scope, forest[i], depth) && KeyAt(pool, forest[i]) == c[i].0)
    && (forall t :: CountForest(pool, forest, t) == CountEntries(pool1, c[..n], t))
  }

  lemma NoGroupTrees(pool: Pool, scope: Scope, c: Container<Signature>, depth: nat)
    requires pool.Valid() && scope.Valid()
    ensures EntriesAnds(pool, c[..0]) && GroupTrees(pool, pool, scope, c, 0, depth, [])
  {
    assert c[..0] == [];
  }

  lemma GroupNodeOk(pool1: Pool, pool: Pool, scope: Scope, c: Container<Signature>, n: nat, depth: nat)
    requires pool1.Valid() && pool.Valid() && pool.Extends(pool1) && scope.Valid()
    requires Keyed(pool1, scope, c, depth) && n < |c|
    ensures c[n].1 != [] && forall j :: 0 <= j < |c[n].1| ==> pool.IsAnd(c[n].1[j], |pool.ors|)
    ensures EntriesAnds(pool1, c) && EntriesAnds(pool1, c[..n]) && EntriesAnds(pool1, c[..n + 1])
  {
    KeyedAnds(pool1, scope, c, depth);
    assert EntryKeyed(pool1, scope, c[n], depth);
    forall j | 0 <= j < |c[n].1|
      ensures pool.IsAnd(c[n].1[j], |pool.ors|)
    {
      var d := c[n].1[j];
      assert pool1.IsAnd(d, |pool1.ors|) && pool.ands[d] == pool1.ands[d];
      assert pool.ors[pool.ands[d].left] == pool1.ors[pool.ands[d].left];
    }
  }

  lemma GroupTreeOk(pool1: Pool, pool: Pool, scope: Scope, entry: (Signature, seq<int>), id: int, depth: nat)
    requires pool1.Valid() && pool.Valid() && pool.Extends(pool1) && scope.Valid() && EntryKeyed(pool1, scope, entry, depth)
    requires pool.IsOr(id) && |pool1.ors| <= id && pool.ors[id] == OrNode(entry.0, ANDS, entry.1) && depth > 1
    ensures TreeOk(pool, scope, id, depth)
    ensures forall j :: 0 <= j < |entry.1| ==> pool1.IsAnd(entry.1[j], |pool1.ors|)
    ensures forall t :: CountOr(pool, id, t) == CountAnds(pool1, |pool1.ors|, entry.1, t)
  {
    hide CountAnds, CountAnd, Scope.HasKey;
    var ds := entry.1;
    assert pool.ValidOr(id);
    forall j | 0 <= j < |ds|
      ensures AndKeyed(pool1, scope, ds[j], entry.0, depth) && AndKeyed(pool, scope, ds[j], entry.0, depth)
    {
      AndKeyedStable(pool1, pool, scope, ds[j], entry.0, depth);
    }
    assert HasDepth(pool, id, depth);
    forall t
      ensures CountOr(pool, id, t) == CountAnds(pool1, |pool1.ors|, ds, t)
      ensures CountOr(pool, id, t) > 0 ==> scope.HasKey(t, entry.0)
    {
      CountAndsStable(pool1, pool, |pool1.ors|, id, ds, t);
      if CountOr(pool, id, t) > 0 {
        var j := CountAndsSome(pool, id, ds, t);
        assert AndKeyed(pool, scope, ds[j], entry.0, depth);
      }
    }
  }

  lemma GroupTree(pool1: Pool, before: Pool, pool: Pool, scope: Scope, c: Container<Signature>, n: nat, depth: nat, forest: seq<int>)
    requires pool1.Valid() && before.Valid() && pool.Valid() && before.Extends(pool1) && pool.Extends(before) && scope.Valid()
    requires Keyed(pool1, scope, c, depth) && n < |c| && depth > 1
    requires EntriesAnds(pool1, c[..n]) && GroupTrees(pool1, before, scope, c, n, depth, forest)
    requires |pool.ors| == |before.ors| + 1 && pool.ors[|before.ors|] == OrNode(c[n].0, ANDS, c[n].1)
    ensures EntriesAnds(pool1, c[..n + 1]) && GroupTrees(pool1, pool, scope, c, n + 1, depth, forest + [|before.ors|])
  {
    hide CountForest, CountEntries, CountAnds, AndKeyed;
    var id := |before.ors|;
    var more := forest + [id];
    GroupNodeOk(pool1, pool, scope, c, n, depth);
    assert EntryKeyed(pool1, scope, c[n], depth);
    GroupTreeOk(pool1, pool, scope, c[n], id, depth);
    forall i | 0 <= i < n
      ensures TreeOk(pool, scope, more[i], depth) && KeyAt(pool, more[i]) == c[i].0
    {
      TreeStable(before, pool, scope, forest[i], depth);
    }
    forall t
      ensures CountForest(pool, more, t) == CountEntries(pool1, c[..n + 1], t)
    {
      assert forall i :: 0 <= i < n ==> TreeOk(before, scope, forest[i], depth);
      CountForestStable(before, pool, forest, t);
      CountForestAppend(pool, forest, id, t);
      CountEntriesAppend(pool1, c, n, t);
    }
  }

  // ---------- Glue between the loops ----------

  lemma ForestTree(older: Pool, pool: Pool, scope: Scope, lefts: seq<int>, i: nat, part: nat)
    requires older.Valid() && pool.Valid() && pool.Extends(older) && scope.Valid()
    requires IsForest(older, scope, lefts, part, 1) && i < |lefts|
    ensures TreeOk(older, scope, lefts[i], 1) && TreeOk(pool, scope, lefts[i], 1)
    ensures forall a :: CountOr(pool, lefts[i], [a]) > 0 ==> scope.IsChoice(a, part)
  {
    hide CountOr, CountForest, HasDepth, Scope.HasKey, Scope.IsChoice, Scope.Chosen;
    assert TreeOk(older, scope, lefts[i], 1);
    TreeStable(older, pool, scope, lefts[i], 1);
    forall a | CountOr(pool, lefts[i], [a]) > 0
      ensures scope.IsChoice(a, part)
    {
      CountOrStable(older, pool, lefts[i], [a]);
      CountForestMember(older, lefts, i, [a]);
      ChosenOne(scope, a, part);
    }
  }

  lemma RightTree(pool: Pool, scope: Scope, rights: seq<int>, j: nat, depth: nat)
    requires pool.Valid() && scope.Valid() && IsForest(pool, scope, rights, 0, depth) && j < |rights|
    ensures TreeOk(pool, scope, rights[j], depth)
  {
  }

  lemma NothingMerged(pool: Pool, scope: Scope, lefts: seq<int>, rights: seq<int>, depth: nat)
    requires pool.Valid() && scope.Valid()
    ensures Keyed(pool, scope, [], depth) && EntriesAnds<Signature>(pool, [])
    ensures forall t :: CountEntries<Signature>(pool, [], t) == ProductCount(pool, lefts[..0], rights, t)
  {
    hide CountForest;
    forall t | t != []
      ensures ProductCount(pool, lefts[..0], rights, t) == 0
    {
      assert CountForest(pool, [], [t[0]]) == 0 by { NoForest(pool, [t[0]]); }
      PairsDistribute(0, 0, CountForest(pool, rights, t[1..]));
    }
  }

  lemma NoForest(pool: Pool, t: seq<int>)
    requires pool.Valid()
    ensures CountForest(pool, [], t) == 0
  {
  }

  lemma NothingInRow(pool: Pool, i: int, rights: seq<int>)
    requires pool.Valid() && pool.IsOr(i)
    ensures forall t :: RowCount(pool, i, rights[..0], t) == 0
  {
    hide CountOr, CountForest;
    forall t | t != []
      ensures RowCount(pool, i, rights[..0], t) == 0
    {
      NoForest(pool, t[1..]);
      PairsDistribute(0, 0, CountOr(pool, i, [t[0]]));
    }
  }

  lemma PairMerged(older: Pool, before: Pool, pool: Pool, scope: Scope, left: int, rights: seq<int>, j: nat, part: nat,
                   c: Container<Signature>, d: int)
    requires older.Valid() && before.Valid() && pool.Valid() && before.Extends(older) && pool.Extends(before)
    requires scope.Valid() && part > 0 && before.ors == older.ors && older.IsOr(left) && j < |rights| && older.IsOr(rights[j])
    requires TreeOk(older, scope, left, 1) && older.ors[left].tag == ARMORS && j < |rights| && TreeOk(older, scope, rights[j], part)
    requires forall a :: CountOr(older, left, [a]) > 0 ==> scope.IsChoice(a, part)
    requires d == |before.ands| && |pool.ands| == d + 1 && pool.ands[d] == AndNode(left, rights[j])
    requires Keyed(before, scope, c, part + 1) && EntriesAnds(before, c)
    ensures var pushed := Pushed(c, MergedKey(older.ors[left].key, older.ors[rights[j]].key, part == BODY), d);
      && Keyed(pool, scope, pushed, part + 1) && EntriesAnds(pool, pushed)
      && forall t ::
           CountEntries(pool, pushed, t) + RowCount(older, left, rights[..j], t) ==
           CountEntries(before, c, t) + RowCount(older, left, rights[..j + 1], t)
  {
    hide CountEntries, CountOr, CountAnd, CountForest, Keyed, EntriesAnds, RowCount, TreeOk, MergedKey, AndKeyed;
    var key := MergedKey(older.ors[left].key, older.ors[rights[j]].key, part == BODY);
    PairAnd(older, before, pool, scope, left, rights, j, part, d);
    KeyedStable(before, pool, scope, c, part + 1);
    KeyedPushed(pool, scope, c, key, d, part + 1);
  }

  lemma PairAnd(older: Pool, before: Pool, pool: Pool, scope: Scope, left: int, rights: seq<int>, j: nat, part: nat, d: int)
    requires older.Valid() && before.Valid() && pool.Valid() && before.Extends(older) && pool.Extends(before)
    requires scope.Valid() && part > 0 && before.ors == older.ors
    requires TreeOk(older, scope, left, 1) && older.ors[left].tag == ARMORS && j < |rights| && TreeOk(older, scope, rights[j], part)
    requires forall a :: CountOr(older, left, [a]) > 0 ==> scope.IsChoice(a, part)
    requires d == |before.ands| && |pool.ands| == d + 1 && pool.ands[d] == AndNode(left, rights[j])
    ensures AndKeyed(pool, scope, d, MergedKey(older.ors[left].key, older.ors[rights[j]].key, part == BODY), part + 1)
    ensures pool.IsAnd(d, |pool.ors|)
    ensures forall t ::
      RowCount(older, left, rights[..j + 1], t) == RowCount(older, left, rights[..j], t) + CountAnd(pool, d, t)
  {
    hide CountOr, CountForest, MergedKey, HasDepth, Scope.HasKey, Scope.IsChoice;
    TreeStable(older, before, scope, left, 1);
    TreeStable(older, before, scope, rights[j], part);
    assert forall t :: CountOr(before, left, t) == CountOr(older, left, t) by {
      forall t
        ensures CountOr(before, left, t) == CountOr(older, left, t)
      {
        CountOrStable(older, before, left, t);
      }
    }
    MergedAnd(before, pool, scope, left, rights[j], part, part, d);
    forall t
      ensures RowCount(older, left, rights[..j + 1], t) == RowCount(older, left, rights[..j], t) + CountAnd(pool, d, t)
    {
      RowGrows(older, pool, left, rights, j, d, t);
    }
  }

  lemma RowGrows(older: Pool, pool: Pool, left: int, rights: seq<int>, j: nat, d: int, t: seq<int>)
    requires older.Valid() && pool.Valid() && pool.Extends(older) && older.IsOr(left) && older.ors[left].tag == ARMORS
    requires j < |rights| && older.IsOr(rights[j])
    requires pool.IsAnd(d, |pool.ors|) && pool.ands[d] == AndNode(left, rights[j])
    ensures RowCount(older, left, rights[..j + 1], t) == RowCount(older, left, rights[..j], t) + CountAnd(pool, d, t)
  {
    assert rights[..j + 1] == rights[..j] + [rights[j]];
    if t != [] {
      CountOrStable(older, pool, rights[j], t[1..]);
      assert pool.ors[left] == older.ors[left];
      CountForestAppend(older, rights[..j], rights[j], t[1..]);
      PairsDistribute(CountForest(older, rights[..j], t[1..]), CountOr(older, rights[j], t[1..]), CountOr(older, left, [t[0]]));
    }
  }

  /** One more left tree has been paired. */
  lemma RowMerged(older: Pool, before: Pool, pool: Pool, scope: Scope, lefts: seq<int>, i: nat, rights: seq<int>, part: nat,
                  c: Container<Signature>, c': Container<Signature>)
    requires older.Valid() && before.Valid() && pool.Valid() && before.Extends(older) && scope.Valid()
    requires IsForest(older, scope, lefts, part, 1) && IsForest(older, scope, rights, 0, part)
    requires i < |lefts| && older.IsOr(lefts[i]) && before.IsOr(lefts[i]) && EntriesAnds(before, c) && EntriesAnds(pool, c')
    requires forall t :: CountEntries(before, c, t) == ProductCount(older, lefts[..i], rights, t)
    requires forall t :: CountEntries(pool, c', t) == CountEntries(before, c, t) + RowCount(before, lefts[i], rights, t)
    ensures forall t :: CountEntries(pool, c', t) == ProductCount(older, lefts[..i + 1], rights, t)
  {
    hide CountEntries, CountOr, CountForest, ProductCount, TreeOk, EntriesAnds, Scope.Chosen;
    forall t
      ensures CountEntries(pool, c', t) == ProductCount(older, lefts[..i + 1], rights, t)
    {
      ProductStep(older, lefts, i, rights, t);
      ForestsAreOrs(older, scope, rights, 0, part);
      if t != [] {
        CountOrStable(older, before, lefts[i], [t[0]]);
        CountForestStable(older, before, rights, t[1..]);
      }
    }
  }

  lemma ForestsAreOrs(pool: Pool, scope: Scope, forest: seq<int>, low: int, depth: nat)
    requires pool.Valid() && scope.Valid() && IsForest(pool, scope, forest, low, depth)
    ensures forall n :: 0 <= n < |forest| ==> pool.IsOr(forest[n])
  {
    assert forall n :: 0 <= n < |forest| ==> TreeOk(pool, scope, forest[n], depth);
  }

  lemma Merged(older: Pool, pool1: Pool, pool: Pool, scope: Scope, lefts: seq<int>, rights: seq<int>, part: nat,
               c: Container<Signature>, forest: seq<int>)
    requires older.Valid() && pool1.Valid() && pool.Valid() && scope.Valid()
    requires IsForest(older, scope, lefts, part, 1) && IsForest(older, scope, rights, 0, part)
    requires EntriesAnds(pool1, c) && EntriesAnds(pool1, c[..|c|]) && DistinctKeys(c)
    requires forall t :: CountEntries(pool1, c, t) == ProductCount(older, lefts, rights, t)
    requires GroupTrees(pool1, pool, scope, c, |c|, part + 1, forest)
    ensures IsForest(pool, scope, forest, 0, part + 1)
  {
    hide CountEntries, CountOr, CountForest, ProductCount, TreeOk, Scope.Chosen;
    assert c[..|c|] == c;
    forall t
      ensures CountForest(pool, forest, t) == if |t| == part + 1 && scope.Chosen(t, 0) then 1 else 0
    {
      ProductOfForests(older, scope, lefts, rights, part, t);
    }
  }
}
