/** Unpacking trees into armor sets, one at a time. */
module Unpackers {
  import opened Signatures
  import opened Datasets
  import opened NodePools
  import opened Enumerations
  import opened Iterators
  import opened UnpackSteps

  /** A tree, the keys of the jewels that complete it, and what its body piece counts. */
  datatype TreeRoot = TreeRoot(id: int, jewelKeys: seq<Signature>, torsoMultiplier: int)

  /** The armor ids, BODY first, HEAD last. */
  datatype RawArmorSet = RawArmorSet(ids: seq<int>, jewelKeys: seq<Signature>)

  ghost predicate RootOk(pool: Pool, root: TreeRoot)
    requires pool.Valid()
  {
    pool.IsOr(root.id) && HasDepth(pool, root.id, PART_NUM)
  }

  ghost predicate RootsOk(pool: Pool, roots: seq<TreeRoot>)
    requires pool.Valid()
  {
    forall n :: 0 <= n < |roots| ==> RootOk(pool, roots[n])
  }

  ghost function WithKeys(sets: seq<seq<int>>, keys: seq<Signature>): seq<RawArmorSet> {
    seq(|sets|, n requires 0 <= n < |sets| => RawArmorSet(sets[n], keys))
  }

  /** The armor sets of a list of trees, tree by tree. */
  ghost function SetsOfRoots(pool: Pool, roots: seq<TreeRoot>): seq<RawArmorSet>
    requires pool.Valid() && RootsOk(pool, roots)
  {
    if roots == [] then []
    else
      assert RootOk(pool, roots[0]);
      WithKeys(EnumOr(pool, roots[0].id), roots[0].jewelKeys) + SetsOfRoots(pool, roots[1..])
  }

  class Unpacker {
    const pool: NodePool
    const source: ListIterator<TreeRoot>
    var stack: Stack
    var top: int
    var armorSet: RawArmorSet

    ghost predicate Valid()
      reads this, pool, source
    {
      && pool.State().Valid() && source.Valid()
      && RootsOk(pool.State(), source.Remaining())
      && IsPath(pool.State(), stack, armorSet.ids, top)
    }

    /** What is still to come: the rest of the current tree, and the trees that follow. */
    ghost function Remaining(): seq<RawArmorSet>
      requires Valid()
      reads this, pool, source
    {
      WithKeys(Rest(pool.State(), stack, armorSet.ids, top), armorSet.jewelKeys)
      + SetsOfRoots(pool.State(), source.Remaining())
    }

    constructor (source: ListIterator<TreeRoot>, pool: NodePool)
      requires pool.State().Valid() && source.Valid() && RootsOk(pool.State(), source.Remaining())
      ensures Valid() && this.source == source && this.pool == pool
      ensures Remaining() == SetsOfRoots(pool.State(), source.Remaining())
    {
      this.source := source;
      this.pool := pool;
      stack := [NO_LEVEL, NO_LEVEL, NO_LEVEL, NO_LEVEL, NO_LEVEL, NO_LEVEL, NO_LEVEL];
      top := -1;
      armorSet := RawArmorSet([0, 0, 0, 0, 0, 0, 0], []);
    }

    /** The next armor set, in depth-first order; false once there is none, now and on every later call. */
    method Next() returns (more: bool)
      requires Valid()
      modifies this, source
      ensures Valid()
      ensures more <==> old(Remaining()) != []
      ensures more ==> armorSet == old(Remaining())[0] && Remaining() == old(Remaining())[1..]
      ensures !more ==> Remaining() == []
    {
      hide Rest, EnumOr, SetsOfRoots, RootOk, WithKeys, LevelOk, Linked, Pending;
      ghost var p, trees := pool.State(), SetsOfRoots(pool.State(), source.Remaining());
      var done, orId := Advance();
      if !done {
        if -1 >= top {
          ghost var roots := source.Remaining();
          assert old(Remaining()) == trees by { NoneWithKeys(armorSet.jewelKeys); }
          var some := source.Next();
          if !some {
            NoRoots(p);
            RestOfNothing(p, stack, armorSet.ids);
            return false;
          }
          FirstRoot(p, roots);
          orId := source.Get().id;
          armorSet := armorSet.(jewelKeys := source.Get().jewelKeys);
          PendingRoot(p, stack, armorSet.ids, orId);
          trees := SetsOfRoots(p, source.Remaining());
        }
        Descend(orId);
      }
      WithKeysFirst(armorSet.ids, Rest(p, stack, armorSet.ids, top), armorSet.jewelKeys, trees);
      more := true;
    }

    /** To the next armor on the deepest level that has one: pops the levels that are exhausted. */
    method Advance() returns (done: bool, orId: int)
      requires Valid()
      modifies this
      ensures Valid() && armorSet.jewelKeys == old(armorSet.jewelKeys)
      ensures done ==> [armorSet.ids] + Rest(pool.State(), stack, armorSet.ids, top)
                       == old(Rest(pool.State(), stack, armorSet.ids, top))
      ensures !done && top >= 0 ==>
        && Entering(pool.State(), stack, armorSet.ids, top, orId)
        && Pending(pool.State(), stack, armorSet.ids, top, orId) == old(Rest(pool.State(), stack, armorSet.ids, top))
      ensures !done && top < 0 ==> old(Rest(pool.State(), stack, armorSet.ids, top)) == []
    {
      hide Rest, Pending, Entering, LevelOk, Linked;
      ghost var goal := Rest(pool.State(), stack, armorSet.ids, top);
      var found := false;
      done, orId := false, -1;
      while -1 < top && !found
        invariant Valid() && armorSet.jewelKeys == old(armorSet.jewelKeys)
        invariant !found ==> !done && Rest(pool.State(), stack, armorSet.ids, top) == goal
        invariant found ==> Found(done, orId, goal)
        decreases top, !found
      {
        found, done, orId := AdvanceLevel();
        if !found {
          top := top - 1;
        }
      }
      RestOfNothing(pool.State(), stack, armorSet.ids);
    }

    /** The next armor set is complete, or its lower levels are yet to be filled. */
    ghost predicate Found(done: bool, orId: int, goal: seq<seq<int>>)
      requires Valid()
      reads this, pool, source
    {
      && top >= 0
      && if done then [armorSet.ids] + Rest(pool.State(), stack, armorSet.ids, top) == goal
         else Entering(pool.State(), stack, armorSet.ids, top, orId)
              && Pending(pool.State(), stack, armorSet.ids, top, orId) == goal
    }

    /** One round of that loop: the next armor on level `top`, or the first of the next AND. */
    method AdvanceLevel() returns (found: bool, done: bool, orId: int)
      requires Valid() && top >= 0
      modifies this`stack, this`armorSet
      ensures armorSet.jewelKeys == old(armorSet.jewelKeys)
      ensures found ==> Valid() && Found(done, orId, old(Rest(pool.State(), stack, armorSet.ids, top)))
      ensures !found ==> !done && IsPath(pool.State(), stack, armorSet.ids, top - 1)
      ensures !found ==> Rest(pool.State(), stack, armorSet.ids, top - 1) == old(Rest(pool.State(), stack, armorSet.ids, top))
    {
      hide Rest, LevelOk, IsPath, Found, LevelBounded, RootsOk, HasAnd, Pool.Valid;
      ghost var stack0 := stack;
      BoundsOfTop();
      found, done, orId := TryArmor();
      if !found {
        found, orId := TryRest(stack0);
      }
    }

    lemma BoundsOfTop()
      requires Valid() && top >= 0
      ensures top < PART_NUM && IsPath(pool.State(), stack, armorSet.ids, top) && LevelOk(pool.State(), stack, armorSet.ids, top)
    {
      hide Rest, LevelOk, Linked, RootsOk, Pool.Valid;
    }

    /** The first armor of the next AND, or else the level is left. */
    method TryRest(ghost stack0: Stack) returns (found: bool, orId: int)
      requires pool.State().Valid() && source.Valid() && RootsOk(pool.State(), source.Remaining())
      requires 0 <= top < PART_NUM && IsPath(pool.State(), stack0, armorSet.ids, top) && LevelBounded(stack0[top])
      requires LevelOk(pool.State(), stack0, armorSet.ids, top)
      requires stack == stack0[top := stack0[top].(armorSeq := stack0[top].armorSeq + 1)]
      requires stack0[top].armorSeq + 1 >= |pool.ors[stack0[top].armorOrId].daughters|
      modifies this`stack, this`armorSet
      ensures armorSet.jewelKeys == old(armorSet.jewelKeys)
      ensures found ==> Valid() && Found(false, orId, old(Rest(pool.State(), stack0, armorSet.ids, top)))
      ensures !found ==> IsPath(pool.State(), stack, armorSet.ids, top - 1)
      ensures !found ==> Rest(pool.State(), stack, armorSet.ids, top - 1) == old(Rest(pool.State(), stack0, armorSet.ids, top))
    {
      hide Rest, LevelOk, IsPath, Found, RootsOk, Pool.Valid;
      found, orId := false, -1;
      if top != PART_NUM - 1 {
        found, orId := TryAnd(stack0);
      }
      if !found {
        PopAt(pool.State(), stack0, armorSet.ids, stack, top);
      }
    }

    /** The next armor on level `top`, if there is one; the position moves on in any case. */
    method TryArmor() returns (found: bool, done: bool, orId: int)
      requires Valid() && top >= 0
      modifies this`stack, this`armorSet
      ensures armorSet.jewelKeys == old(armorSet.jewelKeys) && top < PART_NUM && LevelBounded(old(stack)[top])
      ensures found ==> Valid() && Found(done, orId, old(Rest(pool.State(), stack, armorSet.ids, top)))
      ensures !found ==> !done && armorSet == old(armorSet)
      ensures !found ==> stack == old(stack)[top := old(stack)[top].(armorSeq := old(stack)[top].armorSeq + 1)]
      ensures !found ==> old(stack)[top].armorSeq + 1 >= |pool.ors[old(stack)[top].armorOrId].daughters|
    {
      hide Rest, LevelOk, IsPath, Entering, Pending, Later, HasDepth, EnumOr, Linked, RootsOk, Pool.Valid;
      ghost var p, stack0, ids0 := pool.State(), stack, armorSet.ids;
      found, done, orId := false, false, -1;
      LevelBounds(p, stack, ids0, top);
      var f := stack[top];
      var armors := pool.ors[f.armorOrId].daughters;
      stack := stack[top := f.(armorSeq := f.armorSeq + 1)];
      if f.armorSeq + 1 < |armors| {
        found := true;
        armorSet := armorSet.(ids := armorSet.ids[top := armors[f.armorSeq + 1]]);
        if top == PART_NUM - 1 {
          NextLeaf(p, stack0, ids0);
          done := true;
        } else {
          ArmorStep(p, stack0, ids0, top);
          orId := pool.ands[pool.ors[f.orId].daughters[f.andId]].right;
          EnteringPath(p, stack, armorSet.ids, top, orId);
        }
      }
    }

    /** The level refers to nodes of the pool. */
    ghost predicate LevelBounded(f: StackElement)
      reads this, pool
    {
      0 <= f.armorOrId < |pool.ors| && (top < PART_NUM - 1 ==> HasAnd(pool.State(), f))
    }

    /** The first armor of the next AND on level `top`, if there is one, once the armors of the last AND are exhausted. */
    method TryAnd(ghost stack0: Stack) returns (found: bool, orId: int)
      requires pool.State().Valid() && source.Valid() && RootsOk(pool.State(), source.Remaining())
      requires IsPath(pool.State(), stack0, armorSet.ids, top) && 0 <= top < PART_NUM - 1 && LevelBounded(stack0[top])
      requires stack == stack0[top := stack0[top].(armorSeq := stack0[top].armorSeq + 1)]
      requires stack0[top].armorSeq + 1 >= |pool.ors[stack0[top].armorOrId].daughters|
      modifies this`stack, this`armorSet
      ensures armorSet.jewelKeys == old(armorSet.jewelKeys)
      ensures found ==> Valid() && Found(false, orId, old(Rest(pool.State(), stack0, armorSet.ids, top)))
      ensures !found ==> armorSet == old(armorSet) && forall i :: 0 <= i < top ==> stack[i] == stack0[i]
      ensures !found ==> stack0[top].andId + 1 >= |pool.ors[stack0[top].orId].daughters|
    {
      hide Rest, LevelOk, IsPath, Entering, Pending, Later, HasDepth, EnumOr, Linked;
      ghost var p, ids0 := pool.State(), armorSet.ids;
      found, orId := false, -1;
      LevelBounds(p, stack0, ids0, top);
      var f := stack[top];
      var daughters := pool.ors[f.orId].daughters;
      stack := stack[top := f.(andId := f.andId + 1)];
      if f.andId + 1 < |daughters| {
        found := true;
        AndStep(p, stack0, ids0, top);
        var node := pool.ands[daughters[f.andId + 1]];
        stack := stack[top := stack[top].(armorOrId := node.left, armorSeq := 0)];
        armorSet := armorSet.(ids := armorSet.ids[top := pool.ors[node.left].daughters[0]]);
        assert stack == stack0[top := StackElement(f.orId, f.andId + 1, node.left, 0)];
        orId := node.right;
        EnteringPath(p, stack, armorSet.ids, top, orId);
      }
    }

    /** Fills the levels below `top` with the first armors of the tree at `root`. */
    method Descend(root: int)
      requires pool.State().Valid() && Entering(pool.State(), stack, armorSet.ids, top, root)
      modifies this
      ensures IsPath(pool.State(), stack, armorSet.ids, top) && armorSet.jewelKeys == old(armorSet.jewelKeys)
      ensures [armorSet.ids] + Rest(pool.State(), stack, armorSet.ids, top)
              == old(Pending(pool.State(), stack, armorSet.ids, top, root))
    {
      hide Rest, EnumOr, HasDepth, Linked, LevelOk;
      ghost var p, goal := pool.State(), Pending(pool.State(), stack, armorSet.ids, top, root);
      var orId := root;
      while -1 != orId
        invariant armorSet.jewelKeys == old(armorSet.jewelKeys) && orId >= -1 && IsPath(p, stack, armorSet.ids, top)
        invariant -1 != orId ==>
          Entering(p, stack, armorSet.ids, top, orId) && Pending(p, stack, armorSet.ids, top, orId) == goal
        invariant -1 == orId ==> [armorSet.ids] + Rest(p, stack, armorSet.ids, top) == goal
        decreases orId
      {
        ghost var stack0, ids0, top0 := stack, armorSet.ids, top;
        TagByDepth(p, orId, PART_NUM - 1 - top);
        var orNode := pool.ors[orId];
        if orNode.tag == ANDS {
          EnterInner(p, stack, armorSet.ids, top, orId);
          var andNode := pool.ands[orNode.daughters[0]];
          top := top + 1;
          stack := stack[top := StackElement(orId, 0, andNode.left, 0)];
          armorSet := armorSet.(ids := armorSet.ids[top := pool.ors[andNode.left].daughters[0]]);
          RightDepth(p, stack, armorSet.ids, top);
          orId := andNode.right;
        } else {
          EnterLeaf(p, stack, armorSet.ids, orId);
          top := top + 1;
          stack := stack[top := StackElement(-1, -1, orId, 0)];
          armorSet := armorSet.(ids := armorSet.ids[top := pool.ors[orId].daughters[0]]);
          orId := -1;
        }
      }
    }
  }

  lemma FirstRoot(pool: Pool, roots: seq<TreeRoot>)
    requires pool.Valid() && RootsOk(pool, roots) && roots != []
    ensures RootOk(pool, roots[0]) && RootsOk(pool, roots[1..])
    ensures SetsOfRoots(pool, roots)
         == WithKeys(EnumOr(pool, roots[0].id), roots[0].jewelKeys) + SetsOfRoots(pool, roots[1..])
  {
  }

  /** Whenever its trees are unpacked, a list of trees gives the same sets in the same order. */
  lemma {:induction false} SetsOfRootsStable(older: Pool, pool: Pool, roots: seq<TreeRoot>)
    requires older.Valid() && pool.Valid() && pool.Extends(older) && RootsOk(older, roots)
    ensures RootsOk(pool, roots) && SetsOfRoots(pool, roots) == SetsOfRoots(older, roots)
  {
    hide EnumOr, HasDepth, Pool.Valid;
    forall n | 0 <= n < |roots|
      ensures RootOk(pool, roots[n])
    {
      assert RootOk(older, roots[n]);
      DepthStable(older, pool, roots[n].id, PART_NUM);
    }
    if roots != [] {
      FirstRoot(older, roots);
      FirstRoot(pool, roots);
      EnumOrStable(older, pool, roots[0].id);
      SetsOfRootsStable(older, pool, roots[1..]);
    }
  }

  lemma WithKeysFirst(first: seq<int>, rest: seq<seq<int>>, keys: seq<Signature>, others: seq<RawArmorSet>)
    ensures WithKeys([first] + rest, keys) + others == [RawArmorSet(first, keys)] + (WithKeys(rest, keys) + others)
  {
  }

  lemma NoRoots(pool: Pool)
    requires pool.Valid()
    ensures RootsOk(pool, []) && SetsOfRoots(pool, []) == []
  {
  }

  lemma NoneWithKeys(keys: seq<Signature>)
    ensures WithKeys([], keys) == []
  {
  }
}
