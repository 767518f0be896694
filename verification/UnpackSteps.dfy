/** The unpacker's stack: which armor sets are still to come, and how one move changes that. */
module UnpackSteps {
  import opened Datasets
  import opened NodePools
  import opened Enumerations

  /** One level of the path: an OR, one of its ANDs, the left child of that AND and one of its armors.
      On the last level there is only an OR of armors. */
  datatype StackElement = StackElement(orId: int, andId: int, armorOrId: int, armorSeq: int)

  type Stack = s: seq<StackElement> | |s| == PART_NUM
    witness [NO_LEVEL, NO_LEVEL, NO_LEVEL, NO_LEVEL, NO_LEVEL, NO_LEVEL, NO_LEVEL]

  const NO_LEVEL := StackElement(-1, -1, -1, 0)

  predicate HasAnd(pool: Pool, f: StackElement) {
    && 0 <= f.orId < |pool.ors| && 0 <= f.andId < |pool.ors[f.orId].daughters|
    && 0 <= pool.ors[f.orId].daughters[f.andId] < |pool.ands|
  }

  function AndOf(pool: Pool, f: StackElement): AndNode
    requires HasAnd(pool, f)
  {
    pool.ands[pool.ors[f.orId].daughters[f.andId]]
  }

  ghost predicate InnerOk(pool: Pool, f: StackElement, depth: nat)
    requires pool.Valid()
  {
    && pool.IsOr(f.orId) && pool.ors[f.orId].tag == ANDS && HasDepth(pool, f.orId, depth)
    && 0 <= f.andId < |pool.ors[f.orId].daughters| && pool.IsAnd(pool.ors[f.orId].daughters[f.andId], f.orId)
    && f.armorOrId == AndOf(pool, f).left
    && 0 <= f.armorSeq < |pool.ors[f.armorOrId].daughters|
  }

  ghost predicate LeafOk(pool: Pool, f: StackElement)
  {
    && pool.IsOr(f.armorOrId) && pool.ors[f.armorOrId].tag == ARMORS
    && 0 <= f.armorSeq < |pool.ors[f.armorOrId].daughters|
  }

  /** Level `k` is a node at depth `k` of the tree, and `ids` holds its current armor. */
  ghost predicate LevelOk(pool: Pool, stack: Stack, ids: seq<int>, k: int)
    requires pool.Valid() && 0 <= k < PART_NUM && |ids| == PART_NUM
  {
    && (if k < PART_NUM - 1 then InnerOk(pool, stack[k], PART_NUM - k) else LeafOk(pool, stack[k]))
    && ids[k] == pool.ors[stack[k].armorOrId].daughters[stack[k].armorSeq]
  }

  /** Each level continues in the right child of the AND above it. */
  ghost predicate Linked(pool: Pool, stack: Stack, k: int)
    requires 0 <= k < PART_NUM - 1
  {
    && HasAnd(pool, stack[k])
    && AndOf(pool, stack[k]).right == if k + 1 < PART_NUM - 1 then stack[k + 1].orId else stack[k + 1].armorOrId
  }

  /** The stack is a path from the root down to level `top`. */
  ghost predicate IsPath(pool: Pool, stack: Stack, ids: seq<int>, top: int)
    requires pool.Valid()
  {
    && -1 <= top < PART_NUM && |ids| == PART_NUM
    && (forall k :: 0 <= k <= top ==> LevelOk(pool, stack, ids, k))
    && (forall k :: 0 <= k < top ==> Linked(pool, stack, k))
  }

  /** The armor sets below level `k` after the current armor there. */
  ghost function Later(pool: Pool, f: StackElement, leaf: bool, depth: nat): seq<seq<int>>
    requires pool.Valid() && if leaf then LeafOk(pool, f) else InnerOk(pool, f, depth)
  {
    var armors := pool.ors[f.armorOrId].daughters[f.armorSeq + 1..];
    if leaf then Singles(armors)
    else
      assert pool.ValidOr(f.orId);
      PairUp(armors, EnumOr(pool, AndOf(pool, f).right))
      + EnumAnds(pool, f.orId, pool.ors[f.orId].daughters[f.andId + 1..])
  }

  /** All armor sets still to come on levels 0..k, deepest level first. */
  ghost function Rest(pool: Pool, stack: Stack, ids: seq<int>, k: int): seq<seq<int>>
    requires pool.Valid() && IsPath(pool, stack, ids, k)
    decreases k + 1
  {
    if k < 0 then []
    else
      assert LevelOk(pool, stack, ids, k);
      Prefixed(ids[..k], Later(pool, stack[k], k == PART_NUM - 1, PART_NUM - k)) + Rest(pool, stack, ids, k - 1)
  }

  // ---------- Sequences of sets ----------

  lemma PrefixedConcat(prefix: seq<int>, a: seq<seq<int>>, b: seq<seq<int>>)
    ensures Prefixed(prefix, a + b) == Prefixed(prefix, a) + Prefixed(prefix, b)
  {
  }

  lemma PrefixedTwice(prefix: seq<int>, a: int, sets: seq<seq<int>>)
    ensures Prefixed(prefix, Prefixed([a], sets)) == Prefixed(prefix + [a], sets)
  {
    forall n | 0 <= n < |sets|
      ensures prefix + ([a] + sets[n]) == prefix + [a] + sets[n]
    {
    }
  }

  lemma PrefixedNothing(sets: seq<seq<int>>)
    ensures Prefixed([], sets) == sets
  {
    assert forall n :: 0 <= n < |sets| ==> [] + sets[n] == sets[n];
  }

  /** The first of the armors comes with all sets, before the others. */
  lemma FirstOfPairs(prefix: seq<int>, armors: seq<int>, sets: seq<seq<int>>, others: seq<seq<int>>)
    requires armors != []
    ensures Prefixed(prefix, PairUp(armors, sets) + others)
         == Prefixed(prefix + [armors[0]], sets) + Prefixed(prefix, PairUp(armors[1..], sets) + others)
  {
    var first, rest := Prefixed([armors[0]], sets), PairUp(armors[1..], sets);
    assert PairUp(armors, sets) + others == first + (rest + others);
    PrefixedConcat(prefix, first, rest + others);
    PrefixedTwice(prefix, armors[0], sets);
  }

  lemma FirstSingle(prefix: seq<int>, armors: seq<int>)
    requires armors != []
    ensures Prefixed(prefix, Singles(armors)) == [prefix + [armors[0]]] + Prefixed(prefix, Singles(armors[1..]))
  {
  }

  // ---------- Moves ----------

  /** Changing level `k` does not touch the levels above it. */
  lemma {:induction false} RestAbove(pool: Pool, stack: Stack, ids: seq<int>, stack': Stack, ids': seq<int>, k: int)
    requires pool.Valid() && IsPath(pool, stack, ids, k) && |ids'| == PART_NUM
    requires forall i :: 0 <= i <= k ==> stack'[i] == stack[i] && ids'[i] == ids[i]
    ensures IsPath(pool, stack', ids', k) && Rest(pool, stack', ids', k) == Rest(pool, stack, ids, k)
    decreases k + 1
  {
    hide InnerOk, LeafOk;
    forall i | 0 <= i <= k
      ensures LevelOk(pool, stack', ids', i)
    {
      assert LevelOk(pool, stack, ids, i);
    }
    forall i | 0 <= i < k
      ensures Linked(pool, stack', i)
    {
      assert LevelOk(pool, stack, ids, i) && Linked(pool, stack, i);
    }
    if k >= 0 {
      RestAbove(pool, stack, ids, stack', ids', k - 1);
      assert ids'[..k] == ids[..k];
    }
  }

  /** A level with neither armor nor AND left has nothing to come. */
  lemma PopLevel(pool: Pool, stack: Stack, ids: seq<int>, k: int)
    requires pool.Valid() && IsPath(pool, stack, ids, k) && k >= 0 && LevelOk(pool, stack, ids, k)
    requires stack[k].armorSeq + 1 >= |pool.ors[stack[k].armorOrId].daughters|
    requires k < PART_NUM - 1 ==> stack[k].andId + 1 >= |pool.ors[stack[k].orId].daughters|
    ensures Rest(pool, stack, ids, k) == Rest(pool, stack, ids, k - 1)
  {
    assert LevelOk(pool, stack, ids, k);
    assert Later(pool, stack[k], k == PART_NUM - 1, PART_NUM - k) == [];
  }

  /** An exhausted level is left; whatever stands there now, the levels above are the same. */
  lemma PopAt(pool: Pool, stack: Stack, ids: seq<int>, stack': Stack, k: int)
    requires pool.Valid() && IsPath(pool, stack, ids, k) && k >= 0
    requires LevelOk(pool, stack, ids, k) && stack[k].armorSeq + 1 >= |pool.ors[stack[k].armorOrId].daughters|
    requires k < PART_NUM - 1 ==> stack[k].andId + 1 >= |pool.ors[stack[k].orId].daughters|
    requires forall i :: 0 <= i < k ==> stack'[i] == stack[i]
    ensures IsPath(pool, stack', ids, k - 1) && Rest(pool, stack', ids, k - 1) == Rest(pool, stack, ids, k)
  {
    hide Rest, Later, HasDepth, EnumOr, HasAnd, Linked;
    PopLevel(pool, stack, ids, k);
    PathAbove(pool, stack, ids, k);
    RestAbove(pool, stack, ids, stack', ids, k - 1);
  }

  lemma NextLeaf(pool: Pool, stack: Stack, ids: seq<int>)
    requires pool.Valid() && IsPath(pool, stack, ids, PART_NUM - 1) && LevelOk(pool, stack, ids, PART_NUM - 1)
    requires stack[PART_NUM - 1].armorSeq + 1 < |pool.ors[stack[PART_NUM - 1].armorOrId].daughters|
    ensures var k, f := PART_NUM - 1, stack[PART_NUM - 1];
            var stack', ids' := stack[k := f.(armorSeq := f.armorSeq + 1)],
                                ids[k := pool.ors[f.armorOrId].daughters[f.armorSeq + 1]];
            && IsPath(pool, stack', ids', k)
            && Rest(pool, stack, ids, k) == [ids'] + Rest(pool, stack', ids', k)
  {
    hide Rest, Prefixed, InnerOk, HasDepth;
    var k, f := PART_NUM - 1, stack[PART_NUM - 1];
    var armors := pool.ors[f.armorOrId].daughters;
    var stack', ids' := stack[k := f.(armorSeq := f.armorSeq + 1)], ids[k := armors[f.armorSeq + 1]];
    assert LevelOk(pool, stack, ids, k);
    RestAbove(pool, stack, ids, stack', ids', k - 1);
    assert LevelOk(pool, stack', ids', k);
    assert Linked(pool, stack, k - 1) && Linked(pool, stack', k - 1);
    RestAt(pool, stack, ids, k);
    RestAt(pool, stack', ids', k);
    FirstSingle(ids[..k], armors[f.armorSeq + 1..]);
    assert armors[f.armorSeq + 1..][1..] == armors[f.armorSeq + 2..];
    assert ids' == ids[..k] + [ids'[k]] && ids'[..k] == ids[..k];
  }

  /** Level `k` moves to another armor; the levels below start over in the right child. */
  lemma MoveLevel(pool: Pool, stack: Stack, ids: seq<int>, k: int, f': StackElement, sets: seq<seq<int>>)
    requires pool.Valid() && IsPath(pool, stack, ids, k) && 0 <= k < PART_NUM - 1 && LevelOk(pool, stack, ids, k)
    requires InnerOk(pool, f', PART_NUM - k) && f'.orId == stack[k].orId
    requires sets == EnumOr(pool, AndOf(pool, f').right)
    requires var a := pool.ors[f'.armorOrId].daughters[f'.armorSeq];
             Prefixed(ids[..k], Later(pool, stack[k], false, PART_NUM - k))
             == Prefixed(ids[..k] + [a], sets) + Prefixed(ids[..k], Later(pool, f', false, PART_NUM - k))
    ensures var stack', ids' := stack[k := f'], ids[k := pool.ors[f'.armorOrId].daughters[f'.armorSeq]];
            && IsPath(pool, stack', ids', k)
            && Rest(pool, stack, ids, k) == Prefixed(ids'[..k + 1], sets) + Rest(pool, stack', ids', k)
  {
    hide Later, HasDepth, Rest, Prefixed, EnumOr;
    var a := pool.ors[f'.armorOrId].daughters[f'.armorSeq];
    var stack', ids' := stack[k := f'], ids[k := a];
    assert LevelOk(pool, stack, ids, k);
    RestAt(pool, stack, ids, k);
    RestAbove(pool, stack, ids, stack', ids', k - 1);
    assert LevelOk(pool, stack', ids', k);
    if k > 0 {
      assert LevelOk(pool, stack, ids, k - 1) && LevelOk(pool, stack', ids', k - 1);
      assert Linked(pool, stack, k - 1) && Linked(pool, stack', k - 1);
    }
    RestAt(pool, stack', ids', k);
    assert ids'[..k + 1] == ids[..k] + [a] && ids'[..k] == ids[..k];
  }

  lemma NextArmor(pool: Pool, stack: Stack, ids: seq<int>, k: int)
    requires pool.Valid() && IsPath(pool, stack, ids, k) && 0 <= k < PART_NUM - 1
    requires LevelOk(pool, stack, ids, k)
    requires stack[k].armorSeq + 1 < |pool.ors[stack[k].armorOrId].daughters|
    ensures var f' := stack[k].(armorSeq := stack[k].armorSeq + 1);
            var stack', ids' := stack[k := f'], ids[k := pool.ors[f'.armorOrId].daughters[f'.armorSeq]];
            && IsPath(pool, stack', ids', k)
            && Rest(pool, stack, ids, k)
               == Prefixed(ids'[..k + 1], EnumOr(pool, AndOf(pool, f').right)) + Rest(pool, stack', ids', k)
  {
    hide EnumOr, EnumAnds, PairUp, Prefixed, Rest;
    var f := stack[k];
    var f' := f.(armorSeq := f.armorSeq + 1);
    assert pool.ValidOr(f.orId);
    var armors := pool.ors[f.armorOrId].daughters;
    var sets, others := EnumOr(pool, AndOf(pool, f).right), EnumAnds(pool, f.orId, pool.ors[f.orId].daughters[f.andId + 1..]);
    FirstOfPairs(ids[..k], armors[f.armorSeq + 1..], sets, others);
    assert armors[f.armorSeq + 1..][1..] == armors[f'.armorSeq + 1..];
    MoveLevel(pool, stack, ids, k, f', sets);
  }

  lemma NextAnd(pool: Pool, stack: Stack, ids: seq<int>, k: int)
    requires pool.Valid() && IsPath(pool, stack, ids, k) && 0 <= k < PART_NUM - 1 && LevelOk(pool, stack, ids, k)
    requires stack[k].armorSeq + 1 >= |pool.ors[stack[k].armorOrId].daughters|
    requires stack[k].andId + 1 < |pool.ors[stack[k].orId].daughters|
    ensures var andId := stack[k].andId + 1;
            && pool.IsAnd(pool.ors[stack[k].orId].daughters[andId], stack[k].orId)
            && var f' := StackElement(stack[k].orId, andId, pool.ands[pool.ors[stack[k].orId].daughters[andId]].left, 0);
            && InnerOk(pool, f', PART_NUM - k)
            && var stack', ids' := stack[k := f'], ids[k := pool.ors[f'.armorOrId].daughters[0]];
            && IsPath(pool, stack', ids', k)
            && Rest(pool, stack, ids, k)
               == Prefixed(ids'[..k + 1], EnumOr(pool, AndOf(pool, f').right)) + Rest(pool, stack', ids', k)
  {
    hide EnumOr, Prefixed, Rest;
    var f := stack[k];
    assert pool.ValidOr(f.orId);
    var ds := pool.ors[f.orId].daughters;
    assert pool.IsAnd(ds[f.andId + 1], f.orId);
    var f' := StackElement(f.orId, f.andId + 1, pool.ands[ds[f.andId + 1]].left, 0);
    assert pool.ValidOr(f'.armorOrId);
    var armors := pool.ors[f'.armorOrId].daughters;
    var sets, others := EnumOr(pool, AndOf(pool, f').right), EnumAnds(pool, f.orId, ds[f.andId + 2..]);
    assert pool.ors[f.armorOrId].daughters[f.armorSeq + 1..] == [];
    assert ds[f.andId + 1..][0] == ds[f.andId + 1] && ds[f.andId + 1..][1..] == ds[f.andId + 2..];
    assert EnumAnds(pool, f.orId, ds[f.andId + 1..]) == PairUp(armors, sets) + others;
    assert Later(pool, f, false, PART_NUM - k) == PairUp(armors, sets) + others;
    FirstOfPairs(ids[..k], armors, sets, others);
    assert Later(pool, f', false, PART_NUM - k) == PairUp(armors[1..], sets) + others;
    MoveLevel(pool, stack, ids, k, f', sets);
  }

  /** Entering an OR: its first AND and that AND's first armor become the next level. */
  lemma EnterInner(pool: Pool, stack: Stack, ids: seq<int>, k: int, orId: int)
    requires pool.Valid() && IsPath(pool, stack, ids, k) && k + 1 < PART_NUM - 1
    requires pool.IsOr(orId) && pool.ors[orId].tag == ANDS && HasDepth(pool, orId, PART_NUM - 1 - k)
    requires k >= 0 ==> LevelOk(pool, stack, ids, k) && AndOf(pool, stack[k]).right == orId
    ensures pool.ors[orId].daughters != [] && pool.IsAnd(pool.ors[orId].daughters[0], orId)
    ensures var node := pool.ands[pool.ors[orId].daughters[0]];
            && pool.ors[node.left].daughters != []
            && var stack', ids' := stack[k + 1 := StackElement(orId, 0, node.left, 0)],
                                   ids[k + 1 := pool.ors[node.left].daughters[0]];
            && IsPath(pool, stack', ids', k + 1) && LevelOk(pool, stack', ids', k + 1)
            && AndOf(pool, stack'[k + 1]).right == node.right
            && Prefixed(ids[..k + 1], EnumOr(pool, orId)) + Rest(pool, stack, ids, k)
               == Prefixed(ids'[..k + 2], EnumOr(pool, node.right)) + Rest(pool, stack', ids', k + 1)
  {
    hide Prefixed, Later, Rest, HasDepth, Pool.ValidOr, EnumOr;
    FirstAnd(pool, orId, PART_NUM - 1 - k, ids[..k + 1]);
    var node := pool.ands[pool.ors[orId].daughters[0]];
    var f := StackElement(orId, 0, node.left, 0);
    var stack', ids' := stack[k + 1 := f], ids[k + 1 := pool.ors[node.left].daughters[0]];
    EnterLevel(pool, stack, ids, stack', ids', k);
    RestAt(pool, stack', ids', k + 1);
    assert ids'[..k + 2] == ids[..k + 1] + [ids'[k + 1]] && ids'[..k + 1] == ids[..k + 1];
  }

  /** The first AND of an OR, and its first armor. */
  lemma FirstAnd(pool: Pool, orId: int, depth: nat, prefix: seq<int>)
    requires pool.Valid() && pool.IsOr(orId) && pool.ors[orId].tag == ANDS && HasDepth(pool, orId, depth)
    ensures pool.ors[orId].daughters != [] && pool.IsAnd(pool.ors[orId].daughters[0], orId)
    ensures var node := pool.ands[pool.ors[orId].daughters[0]];
            && pool.ors[node.left].daughters != []
            && var f := StackElement(orId, 0, node.left, 0);
               InnerOk(pool, f, depth)
               && Prefixed(prefix, EnumOr(pool, orId))
                  == Prefixed(prefix + [pool.ors[node.left].daughters[0]], EnumOr(pool, node.right))
                     + Prefixed(prefix, Later(pool, f, false, depth))
  {
    hide Prefixed, HasDepth;
    assert pool.ValidOr(orId);
    var ds := pool.ors[orId].daughters;
    assert pool.IsAnd(ds[0], orId);
    var node := pool.ands[ds[0]];
    assert pool.ValidOr(node.left);
    var armors := pool.ors[node.left].daughters;
    var sets, others := EnumOr(pool, node.right), EnumAnds(pool, orId, ds[1..]);
    assert EnumOr(pool, orId) == PairUp(armors, sets) + others;
    FirstOfPairs(prefix, armors, sets, others);
    assert Later(pool, StackElement(orId, 0, node.left, 0), false, depth) == PairUp(armors[1..], sets) + others;
  }

  lemma RestAt(pool: Pool, stack: Stack, ids: seq<int>, k: int)
    requires pool.Valid() && IsPath(pool, stack, ids, k) && k >= 0 && LevelOk(pool, stack, ids, k)
    ensures IsPath(pool, stack, ids, k - 1)
    ensures Rest(pool, stack, ids, k)
         == Prefixed(ids[..k], Later(pool, stack[k], k == PART_NUM - 1, PART_NUM - k)) + Rest(pool, stack, ids, k - 1)
  {
    hide Prefixed, Later, InnerOk, LeafOk;
  }

  lemma EnterLevel(pool: Pool, stack: Stack, ids: seq<int>, stack': Stack, ids': seq<int>, k: int)
    requires pool.Valid() && IsPath(pool, stack, ids, k) && k + 1 < PART_NUM && |ids'| == PART_NUM
    requires forall i :: 0 <= i <= k ==> stack'[i] == stack[i] && ids'[i] == ids[i]
    requires LevelOk(pool, stack', ids', k + 1)
    requires k >= 0 ==> LevelOk(pool, stack, ids, k) && Linked(pool, stack[k + 1 := stack'[k + 1]], k)
    ensures IsPath(pool, stack', ids', k) && IsPath(pool, stack', ids', k + 1)
    ensures Rest(pool, stack', ids', k) == Rest(pool, stack, ids, k)
  {
    hide InnerOk, LeafOk, Rest;
    RestAbove(pool, stack, ids, stack', ids', k);
    if k >= 0 {
      assert LevelOk(pool, stack', ids', k);
      assert Linked(pool, stack', k);
    }
  }

  lemma EnterLeaf(pool: Pool, stack: Stack, ids: seq<int>, orId: int)
    requires pool.Valid() && IsPath(pool, stack, ids, PART_NUM - 2)
    requires pool.IsOr(orId) && pool.ors[orId].tag == ARMORS
    requires LevelOk(pool, stack, ids, PART_NUM - 2) && HasAnd(pool, stack[PART_NUM - 2]) && AndOf(pool, stack[PART_NUM - 2]).right == orId
    ensures pool.ors[orId].daughters != []
    ensures var k := PART_NUM - 1;
            var stack', ids' := stack[k := StackElement(-1, -1, orId, 0)], ids[k := pool.ors[orId].daughters[0]];
            && IsPath(pool, stack', ids', k)
            && Prefixed(ids[..k], EnumOr(pool, orId)) + Rest(pool, stack, ids, k - 1) == [ids'] + Rest(pool, stack', ids', k)
  {
    hide Prefixed;
    assert pool.ValidOr(orId);
    var k, armors := PART_NUM - 1, pool.ors[orId].daughters;
    var stack', ids' := stack[k := StackElement(-1, -1, orId, 0)], ids[k := armors[0]];
    assert LevelOk(pool, stack', ids', k);
    assert AndOf(pool, stack[k - 1]).right == stack'[k].armorOrId;
    EnterLevel(pool, stack, ids, stack', ids', k - 1);
    FirstSingle(ids[..k], armors);
    assert ids' == ids[..k] + [armors[0]] && ids'[..k] == ids[..k];
  }

  // ---------- Between the moves ----------

  /** Level `top` stands on an armor, and the levels below it are yet to be filled from `orId`. */
  ghost predicate Entering(pool: Pool, stack: Stack, ids: seq<int>, top: int, orId: int)
    requires pool.Valid()
  {
    && IsPath(pool, stack, ids, top) && top + 1 < PART_NUM
    && pool.IsOr(orId) && HasDepth(pool, orId, PART_NUM - 1 - top)
    && (top >= 0 ==> LevelOk(pool, stack, ids, top) && HasAnd(pool, stack[top]) && AndOf(pool, stack[top]).right == orId)
  }

  /** What is to come before that happens. */
  ghost function Pending(pool: Pool, stack: Stack, ids: seq<int>, top: int, orId: int): seq<seq<int>>
    requires pool.Valid() && Entering(pool, stack, ids, top, orId)
  {
    Prefixed(ids[..top + 1], EnumOr(pool, orId)) + Rest(pool, stack, ids, top)
  }

  lemma RightDepth(pool: Pool, stack: Stack, ids: seq<int>, k: int)
    requires pool.Valid() && IsPath(pool, stack, ids, k) && 0 <= k < PART_NUM - 1 && LevelOk(pool, stack, ids, k)
    ensures HasAnd(pool, stack[k]) && Entering(pool, stack, ids, k, AndOf(pool, stack[k]).right)
  {
    var f := stack[k];
    assert HasDepth(pool, f.orId, PART_NUM - k);
    assert pool.IsAnd(pool.ors[f.orId].daughters[f.andId], f.orId);
  }

  lemma LevelBounds(pool: Pool, stack: Stack, ids: seq<int>, k: int)
    requires pool.Valid() && IsPath(pool, stack, ids, k) && 0 <= k
    ensures k < PART_NUM && |ids| == PART_NUM && LevelOk(pool, stack, ids, k)
    ensures pool.IsOr(stack[k].armorOrId) && 0 <= stack[k].armorSeq < |pool.ors[stack[k].armorOrId].daughters|
    ensures k < PART_NUM - 1 ==> HasAnd(pool, stack[k])
  {
    assert LevelOk(pool, stack, ids, k);
    if k < PART_NUM - 1 {
      assert pool.ValidOr(stack[k].orId);
    }
  }

  lemma PathAbove(pool: Pool, stack: Stack, ids: seq<int>, k: int)
    requires pool.Valid() && IsPath(pool, stack, ids, k) && 0 <= k
    ensures IsPath(pool, stack, ids, k - 1)
  {
  }

  lemma ArmorStep(pool: Pool, stack: Stack, ids: seq<int>, k: int)
    requires pool.Valid() && IsPath(pool, stack, ids, k) && 0 <= k < PART_NUM - 1
    requires LevelOk(pool, stack, ids, k) && HasAnd(pool, stack[k])
    requires stack[k].armorSeq + 1 < |pool.ors[stack[k].armorOrId].daughters|
    ensures var f, armors := stack[k], pool.ors[stack[k].armorOrId].daughters;
            var stack', ids' := stack[k := f.(armorSeq := f.armorSeq + 1)], ids[k := armors[f.armorSeq + 1]];
            && Entering(pool, stack', ids', k, AndOf(pool, f).right)
            && Pending(pool, stack', ids', k, AndOf(pool, f).right) == Rest(pool, stack, ids, k)
  {
    hide Rest, HasDepth, Linked, Prefixed, EnumOr;
    NextArmor(pool, stack, ids, k);
    var f' := stack[k].(armorSeq := stack[k].armorSeq + 1);
    var stack', ids' := stack[k := f'], ids[k := pool.ors[f'.armorOrId].daughters[f'.armorSeq]];
    LevelBounds(pool, stack', ids', k);
    RightDepth(pool, stack', ids', k);
  }

  lemma AndStep(pool: Pool, stack: Stack, ids: seq<int>, k: int)
    requires pool.Valid() && IsPath(pool, stack, ids, k) && 0 <= k < PART_NUM - 1
    requires LevelOk(pool, stack, ids, k) && HasAnd(pool, stack[k])
    requires stack[k].armorSeq + 1 >= |pool.ors[stack[k].armorOrId].daughters|
    requires stack[k].andId + 1 < |pool.ors[stack[k].orId].daughters|
    ensures var f, d := stack[k], pool.ors[stack[k].orId].daughters[stack[k].andId + 1];
            && pool.IsAnd(d, f.orId) && pool.ors[pool.ands[d].left].daughters != []
            && var node := pool.ands[d];
            var stack' := stack[k := StackElement(f.orId, f.andId + 1, node.left, 0)];
            var ids' := ids[k := pool.ors[node.left].daughters[0]];
            && Entering(pool, stack', ids', k, node.right)
            && Pending(pool, stack', ids', k, node.right) == Rest(pool, stack, ids, k)
  {
    hide Rest, HasDepth, Linked, Prefixed, EnumOr;
    NextAnd(pool, stack, ids, k);
    var f, d := stack[k], pool.ors[stack[k].orId].daughters[stack[k].andId + 1];
    var node := pool.ands[d];
    assert pool.ValidOr(node.left);
    var stack' := stack[k := StackElement(f.orId, f.andId + 1, node.left, 0)];
    var ids' := ids[k := pool.ors[node.left].daughters[0]];
    LevelBounds(pool, stack', ids', k);
    RightDepth(pool, stack', ids', k);
  }

  lemma EnteringPath(pool: Pool, stack: Stack, ids: seq<int>, top: int, orId: int)
    requires pool.Valid() && Entering(pool, stack, ids, top, orId)
    ensures IsPath(pool, stack, ids, top)
  {
  }

  lemma RestOfNothing(pool: Pool, stack: Stack, ids: seq<int>)
    requires pool.Valid() && |ids| == PART_NUM
    ensures IsPath(pool, stack, ids, -1) && Rest(pool, stack, ids, -1) == []
  {
  }

  lemma PendingRoot(pool: Pool, stack: Stack, ids: seq<int>, orId: int)
    requires pool.Valid() && |ids| == PART_NUM && pool.IsOr(orId) && HasDepth(pool, orId, PART_NUM)
    ensures Entering(pool, stack, ids, -1, orId)
    ensures Pending(pool, stack, ids, -1, orId) == EnumOr(pool, orId)
  {
    PrefixedNothing(EnumOr(pool, orId));
  }

  lemma TagByDepth(pool: Pool, orId: int, depth: nat)
    requires pool.Valid() && pool.IsOr(orId) && HasDepth(pool, orId, depth)
    ensures depth > 0 && (pool.ors[orId].tag == ARMORS <==> depth == 1)
  {
  }
}
