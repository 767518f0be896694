/** Forests in which every armor set stands in the tree of its signature. */
module FoundationSteps {
  import opened Signatures
  import opened Datasets
  import opened Keys
  import opened NodePools
  import opened TinyMaps
  import opened AndGroups

  /** What a foundation is made from. */
  datatype Scope = Scope(data: Data, effects: seq<Effect>, filter: ArmorFilter)
  {
    ghost predicate Valid() { data.Valid() && |effects| <= EFFECTS }

    predicate IsChoice(id: int, part: int) {
      data.IsArmor(id) && data.armors[id].part == part && filter.Validate(data.armors[id], id)
    }

    /** One allowed armor for each part from `low` up, highest part first. */
    predicate Chosen(t: seq<int>, low: int) {
      forall i :: 0 <= i < |t| ==> IsChoice(t[i], low + |t| - 1 - i)
    }

    /** The signature of the armors of a set, as merging the forests adds it up. */
    function KeyOf(t: seq<int>): Signature
      requires |effects| <= EFFECTS && t != [] && AreArmors(data, t)
    {
      var own := ArmorSignature(data.armors[t[0]], effects);
      if |t| == 1 then own
      else
        var rest := KeyOf(t[1..]);
        Add(if data.armors[t[0]].part == BODY then BodyRefactor(own, Multiplier(rest) + 1) else own, rest)
    }

    ghost predicate HasKey(t: seq<int>, key: Signature)
      requires |effects| <= EFFECTS
    {
      t != [] && AreArmors(data, t) && KeyOf(t) == key
    }
  }

  // ---------- Forests ----------

  ghost predicate TreeOk(pool: Pool, scope: Scope, id: int, depth: nat)
    requires pool.Valid() && scope.Valid()
  {
    && pool.IsOr(id) && HasDepth(pool, id, depth)
    && forall t :: CountOr(pool, id, t) > 0 ==> scope.HasKey(t, pool.ors[id].key)
  }

  /** The trees list every choice of armors for the parts from `low` up exactly once, and nothing else;
      two sets stand in the same tree if and only if they have the same signature. */
  ghost predicate IsForest(pool: Pool, scope: Scope, forest: seq<int>, low: int, depth: nat)
    requires pool.Valid() && scope.Valid()
  {
    && (forall n :: 0 <= n < |forest| ==> TreeOk(pool, scope, forest[n], depth))
    && (forall i, j :: 0 <= i < j < |forest| ==> KeyAt(pool, forest[i]) != KeyAt(pool, forest[j]))
    && (forall t :: CountForest(pool, forest, t) == if |t| == depth && scope.Chosen(t, low) then 1 else 0)
  }

  ghost function KeyAt(pool: Pool, id: int): Signature {
    if pool.IsOr(id) then pool.ors[id].key else ZERO
  }

  lemma TreeStable(older: Pool, pool: Pool, scope: Scope, id: int, depth: nat)
    requires older.Valid() && pool.Valid() && pool.Extends(older) && scope.Valid() && TreeOk(older, scope, id, depth)
    ensures TreeOk(pool, scope, id, depth) && KeyAt(pool, id) == KeyAt(older, id)
  {
    hide CountOr, HasDepth, Scope.HasKey;
    DepthStable(older, pool, id, depth);
    forall t
      ensures CountOr(pool, id, t) == CountOr(older, id, t)
    {
      CountOrStable(older, pool, id, t);
    }
  }

  lemma ForestStable(older: Pool, pool: Pool, scope: Scope, forest: seq<int>, low: int, depth: nat)
    requires older.Valid() && pool.Valid() && pool.Extends(older) && scope.Valid()
    requires IsForest(older, scope, forest, low, depth)
    ensures IsForest(pool, scope, forest, low, depth)
  {
    hide CountOr, HasDepth, Scope.HasKey, CountForest, Scope.Chosen;
    forall n | 0 <= n < |forest|
      ensures TreeOk(pool, scope, forest[n], depth) && KeyAt(pool, forest[n]) == KeyAt(older, forest[n])
    {
      assert TreeOk(older, scope, forest[n], depth);
      TreeStable(older, pool, scope, forest[n], depth);
    }
    forall t
      ensures CountForest(pool, forest, t) == CountForest(older, forest, t)
    {
      assert forall n :: 0 <= n < |forest| ==> TreeOk(older, scope, forest[n], depth);
      CountForestStable(older, pool, forest, t);
    }
  }

  // ---------- Armors of one part, by signature ----------

  /** The armors among the first `n` that are choices for the part, by signature. */
  ghost predicate Classified(scope: Scope, c: Container<Signature>, part: int, n: nat)
    requires scope.Valid() && n <= |scope.data.armors|
  {
    && DistinctKeys(c)
    && (forall i :: 0 <= i < |c| ==> c[i].1 != [])
    && (forall i, j :: 0 <= i < |c| && 0 <= j < |c[i].1| ==>
          scope.data.IsArmor(c[i].1[j]) && ArmorSignature(scope.data.armors[c[i].1[j]], scope.effects) == c[i].0)
    && (forall a :: Total(c, a) == if a < n && scope.IsChoice(a, part) then 1 else 0)
  }

  lemma ClassifiedNone(scope: Scope, part: int)
    requires scope.Valid()
    ensures Classified(scope, [], part, 0)
  {
  }

  lemma ClassifiedSkip(scope: Scope, c: Container<Signature>, part: int, n: nat)
    requires scope.Valid() && n < |scope.data.armors| && Classified(scope, c, part, n) && !scope.IsChoice(n, part)
    ensures Classified(scope, c, part, n + 1)
  {
  }

  lemma ClassifiedPushed(scope: Scope, c: Container<Signature>, part: int, n: nat)
    requires scope.Valid() && n < |scope.data.armors| && Classified(scope, c, part, n) && scope.IsChoice(n, part)
    ensures Classified(scope, Pushed(c, ArmorSignature(scope.data.armors[n], scope.effects), n), part, n + 1)
  {
    hide Total, Pushed, ArmorSignature;
    var key := ArmorSignature(scope.data.armors[n], scope.effects);
    var pushed := Pushed(c, key, n);
    PushedEntries(c, key, n);
    PushedDistinct(c, key, n);
    forall a
      ensures Total(pushed, a) == if a < n + 1 && scope.IsChoice(a, part) then 1 else 0
    {
      PushedTotal(c, key, n, a);
    }
  }

  /** One more class becomes an OR of armors. */
  lemma ClassTree(older: Pool, pool: Pool, scope: Scope, c: Container<Signature>, part: int, n: nat, forest: seq<int>)
    requires older.Valid() && pool.Valid() && pool.Extends(older) && scope.Valid()
    requires Classified(scope, c, part, |scope.data.armors|) && n < |c|
    requires |pool.ors| == |older.ors| + 1 && pool.ors[|older.ors|] == OrNode(c[n].0, ARMORS, c[n].1)
    requires ClassTrees(older, scope, c, n, forest)
    ensures ClassTrees(pool, scope, c, n + 1, forest + [|older.ors|])
  {
    hide Total, ArmorSignature, CountForest;
    var id := |older.ors|;
    var more := forest + [id];
    ClassTreeOk(pool, scope, c, part, n, id);
    forall i | 0 <= i < n
      ensures TreeOk(pool, scope, more[i], 1) && KeyAt(pool, more[i]) == c[i].0
    {
      TreeStable(older, pool, scope, forest[i], 1);
    }
    forall t
      ensures CountForest(pool, more, t) == if |t| == 1 then Total(c[..n + 1], t[0]) else 0
    {
      CountForestStable(older, pool, forest, t);
      CountForestAppend(pool, forest, id, t);
      if |t| == 1 {
        TotalAppend(c, n, t[0]);
      }
    }
  }

  lemma ClassTreeOk(pool: Pool, scope: Scope, c: Container<Signature>, part: int, n: nat, id: int)
    requires pool.Valid() && scope.Valid() && Classified(scope, c, part, |scope.data.armors|) && n < |c|
    requires pool.IsOr(id) && pool.ors[id] == OrNode(c[n].0, ARMORS, c[n].1)
    ensures TreeOk(pool, scope, id, 1)
    ensures forall t :: CountOr(pool, id, t) == if |t| == 1 then multiset(c[n].1)[t[0]] else 0
  {
    hide ArmorSignature;
    forall t | CountOr(pool, id, t) > 0
      ensures scope.HasKey(t, pool.ors[id].key)
    {
      var j :| 0 <= j < |c[n].1| && c[n].1[j] == t[0];
    }
  }

  ghost predicate ClassTrees(pool: Pool, scope: Scope, c: Container<Signature>, n: nat, forest: seq<int>)
    requires pool.Valid() && scope.Valid() && n <= |c|
  {
    && |forest| == n
    && (forall i :: 0 <= i < n ==> TreeOk(pool, scope, forest[i], 1) && KeyAt(pool, forest[i]) == c[i].0)
    && (forall t :: CountForest(pool, forest, t) == if |t| == 1 then Total(c[..n], t[0]) else 0)
  }

  lemma NoClassTrees(pool: Pool, scope: Scope, c: Container<Signature>)
    requires pool.Valid() && scope.Valid()
    ensures ClassTrees(pool, scope, c, 0, [])
  {
    assert c[..0] == [];
  }

  lemma ClassForest(pool: Pool, scope: Scope, c: Container<Signature>, part: int, forest: seq<int>)
    requires pool.Valid() && scope.Valid() && Classified(scope, c, part, |scope.data.armors|)
    requires ClassTrees(pool, scope, c, |c|, forest)
    ensures IsForest(pool, scope, forest, part, 1)
  {
    hide CountForest, TreeOk, Total, ArmorSignature;
    assert c[..|c|] == c;
    assert forall t: seq<int> :: |t| == 1 ==> (scope.Chosen(t, part) <==> scope.IsChoice(t[0], part));
  }
}
