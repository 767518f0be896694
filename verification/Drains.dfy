/** Running a stage until nothing more comes. */
module Drains {
  import opened Signatures
  import opened Datasets
  import opened SlotRecurrence
  import opened SlotClients
  import opened NodePools
  import opened Unpackers
  import opened TreeLists
  import opened Candidates
  import opened JewelPruners
  import opened SplitStages
  import opened SkillSplitPruners
  import opened RawSets
  import opened RootCounts

  ghost predicate AllNonempty(roots: seq<TreeRoot>) {
    forall n :: 0 <= n < |roots| ==> roots[n].jewelKeys != []
  }

  // ---------- Jewel filters ----------

  /** Every tree with candidates stays, with all its candidates. */
  method DrainJewels(pruner: JewelPruner) returns (roots: seq<TreeRoot>)
    requires pruner.Valid()
    modifies pruner, pruner.source, pruner.slotClient.buffer, pruner.slotClient.fixedBuffer
    ensures pruner.pool.State().Valid()
    ensures AllKept(pruner.pool.State(), pruner.data, pruner.query, roots, FoundationCount(pruner.query), pruner.effectId + 1)
    ensures AllNonempty(roots)
    ensures forall t ::
      CountRoots(pruner.pool.State(), roots, t) ==
      KeptCount(pruner.pool.State(), pruner.slotClient.classes, pruner.inversePoints, old(pruner.source.Remaining()), t)
    ensures forall t, u, jewelKey ::
      Carries(pruner.pool.State(), roots, t, u, jewelKey) <==>
      Prunes(pruner.pool.State(), pruner.slotClient.classes, pruner.inversePoints, old(pruner.source.Remaining()), t, u, jewelKey)
  {
    hide RootKept, IsPruned, AllHopeless, Ready, InverseKey, EffectClasses, CountRoots, KeptCount, Carries, Prunes, Pool.Valid,
      AllNonempty, AllKept, SlotClient.Valid, Drained, JewelPruner.Valid, IsNext;
    PrunerBounds(pruner);
    ghost var p, all, classes, inverse := pruner.pool.State(), pruner.source.Remaining(), pruner.slotClient.classes, pruner.inversePoints;
    roots := [];
    assert all[0..] == all && all[..|all|] == all;
    NothingDrained(p, pruner.data, pruner.query, pruner.effectId, classes, inverse, all);
    var more, k := NextPruned(pruner, all, 0);
    DrainedMore(p, pruner.data, pruner.query, pruner.effectId, classes, inverse, all, 0, k, roots);
    while more
      invariant pruner.Valid() && pruner.source.Valid() && pruner.pool.State() == p && k <= |all| && more == (k < |all|)
      invariant Drained(p, pruner.data, pruner.query, pruner.effectId, classes, inverse, all[..k], roots)
      invariant more ==> IsNext(p, pruner.data, pruner.query, pruner.effectId, classes, inverse, all[k], pruner.current)
      invariant more ==> pruner.source.Remaining() == all[k + 1..]
      decreases more, |all| - k
    {
      ghost var from := k;
      DrainedOne(p, pruner.data, pruner.query, pruner.effectId, classes, inverse, all, k, roots, pruner.current);
      roots := roots + [pruner.current];
      more, k := NextPruned(pruner, all, k + 1);
      DrainedMore(p, pruner.data, pruner.query, pruner.effectId, classes, inverse, all, from + 1, k, roots);
    }
    EndDrain(p, pruner.data, pruner.query, pruner.effectId, classes, inverse, all, roots);
  }

  /** The next tree with candidates, among the trees from `from` on. */
  method NextPruned(pruner: JewelPruner, ghost all: seq<TreeRoot>, ghost from: nat) returns (more: bool, ghost k: nat)
    requires pruner.Valid() && pruner.source.Valid() && from <= |all| && pruner.source.Remaining() == all[from..]
    modifies pruner, pruner.source, pruner.slotClient.buffer, pruner.slotClient.fixedBuffer
    ensures pruner.Valid() && pruner.source.Valid() && from <= k <= |all| && more == (k < |all|)
    ensures pruner.pool.State().Valid() && pruner.effectId < |pruner.query.effects| <= EFFECTS
    ensures AllHopeless(pruner.pool.State(), pruner.slotClient.classes, pruner.inversePoints, all[from..k])
    ensures more ==>
      && IsNext(pruner.pool.State(), pruner.data, pruner.query, pruner.effectId, pruner.slotClient.classes, pruner.inversePoints,
                all[k], pruner.current)
      && pruner.source.Remaining() == all[k + 1..]
  {
    hide RootKept, IsPruned, AllHopeless, Ready, InverseKey, EffectClasses, Pool.Valid, AllKept, SlotClient.Valid, JewelPruner.Valid;
    ghost var skipped;
    more, skipped := pruner.Next();
    PrunerBounds(pruner);
    k := from + skipped;
    assert all[from..][..skipped] == all[from..k];
  }

  lemma PrunerBounds(pruner: JewelPruner)
    requires pruner.Valid()
    ensures pruner.pool.State().Valid() && pruner.source.Valid() && pruner.effectId < |pruner.query.effects| <= EFFECTS
    ensures pruner.slotClient.classes == EffectClasses(pruner.data, pruner.query, pruner.effectId)
    ensures pruner.inversePoints == InverseKey(pruner.query.effects, pruner.effectId + 1)
  {
  }

  ghost predicate IsNext(pool: Pool, data: Data, query: Query, e: nat, classes: Classes, inverse: Signature, root: TreeRoot, out: TreeRoot)
    requires pool.Valid() && e < |query.effects| <= EFFECTS
  {
    && RootKept(pool, data, query, out, FoundationCount(query), e + 1) && out.jewelKeys != []
    && pool.IsOr(root.id) && IsPruned(pool, classes, inverse, root, out)
  }

  /** `roots` is what pruning has made of the trees `all`. */
  ghost predicate Drained(pool: Pool, data: Data, query: Query, e: nat, classes: Classes, inverse: Signature, all: seq<TreeRoot>,
                          roots: seq<TreeRoot>)
    requires pool.Valid() && e < |query.effects| <= EFFECTS
  {
    && AllKept(pool, data, query, roots, FoundationCount(query), e + 1) && AllNonempty(roots)
    && (forall t :: CountRoots(pool, roots, t) == KeptCount(pool, classes, inverse, all, t))
    && (forall t, u, jewelKey :: Carries(pool, roots, t, u, jewelKey) <==> Prunes(pool, classes, inverse, all, t, u, jewelKey))
  }

  lemma NothingDrained(pool: Pool, data: Data, query: Query, e: nat, classes: Classes, inverse: Signature, all: seq<TreeRoot>)
    requires pool.Valid() && e < |query.effects| <= EFFECTS
    ensures Drained(pool, data, query, e, classes, inverse, all[..0], [])
  {
    hide HasBoth, IsCandidate;
    assert all[..0] == [];
    forall t
      ensures CountRoots(pool, [], t) == KeptCount(pool, classes, inverse, [], t)
    {
      CountNoRoots(pool, t);
    }
  }

  lemma DrainedOne(pool: Pool, data: Data, query: Query, e: nat, classes: Classes, inverse: Signature, all: seq<TreeRoot>, k: nat,
                   roots: seq<TreeRoot>, root: TreeRoot)
    requires pool.Valid() && e < |query.effects| <= EFFECTS && k < |all|
    requires Drained(pool, data, query, e, classes, inverse, all[..k], roots)
    requires IsNext(pool, data, query, e, classes, inverse, all[k], root)
    ensures Drained(pool, data, query, e, classes, inverse, all[..k + 1], roots + [root])
  {
    hide RootKept, CountRoots, KeptCount, IsCandidate, CountOr, Carries, Prunes, Pool.Valid;
    assert root.jewelKeys[0] in root.jewelKeys;
    forall t
      ensures CountRoots(pool, roots + [root], t) == KeptCount(pool, classes, inverse, all[..k + 1], t)
    {
      CountRootsAppend(pool, roots, root, t);
      KeptCountAppend(pool, classes, inverse, all, k, t);
    }
    forall t, u, jewelKey
      ensures Carries(pool, roots + [root], t, u, jewelKey) <==> Prunes(pool, classes, inverse, all[..k + 1], t, u, jewelKey)
    {
      CarriesAppend(pool, roots, root, t, u, jewelKey);
      PrunesAppend(pool, classes, inverse, all, k, t, u, jewelKey);
    }
  }

  lemma DrainedMore(pool: Pool, data: Data, query: Query, e: nat, classes: Classes, inverse: Signature, all: seq<TreeRoot>, k: nat,
                    next: nat, roots: seq<TreeRoot>)
    requires pool.Valid() && e < |query.effects| <= EFFECTS && k <= next <= |all|
    requires Drained(pool, data, query, e, classes, inverse, all[..k], roots)
    requires AllHopeless(pool, classes, inverse, all[k..next])
    ensures Drained(pool, data, query, e, classes, inverse, all[..next], roots)
  {
    hide AllKept, AllHopeless, KeptCount, CountRoots, Carries, Prunes, Pool.Valid;
    forall t
      ensures KeptCount(pool, classes, inverse, all[..next], t) == KeptCount(pool, classes, inverse, all[..k], t)
    {
      KeptCountSkip(pool, classes, inverse, all, k, next, t);
    }
    forall t, u, jewelKey
      ensures Prunes(pool, classes, inverse, all[..next], t, u, jewelKey) <==> Prunes(pool, classes, inverse, all[..k], t, u, jewelKey)
    {
      PrunesSkip(pool, classes, inverse, all, k, next, t, u, jewelKey);
    }
  }

  lemma EndDrain(pool: Pool, data: Data, query: Query, e: nat, classes: Classes, inverse: Signature, all: seq<TreeRoot>, roots: seq<TreeRoot>)
    requires pool.Valid() && e < |query.effects| <= EFFECTS
    requires Drained(pool, data, query, e, classes, inverse, all, roots)
    ensures AllKept(pool, data, query, roots, FoundationCount(query), e + 1) && AllNonempty(roots)
    ensures forall t :: CountRoots(pool, roots, t) == KeptCount(pool, classes, inverse, all, t)
    ensures forall t, u, jewelKey :: Carries(pool, roots, t, u, jewelKey) <==> Prunes(pool, classes, inverse, all, t, u, jewelKey)
  {
    hide AllKept, KeptCount, CountRoots, Carries, Prunes, Pool.Valid;
  }

  // ---------- Skill splits ----------

  /** Everything that was to come. */
  method DrainSplits(pruner: SkillSplitPruner) returns (roots: seq<TreeRoot>)
    requires pruner.Valid()
    modifies pruner, pruner.source, pruner.pool, pruner.clients.Caches()
    ensures pruner.Valid() && pruner.pool.State().Extends(old(pruner.pool.State()))
    ensures AllComplete(pruner.pool.State(), pruner.data, pruner.query, roots, pruner.effectId + 1)
    ensures forall t, u, jewelKey :: Carries(pruner.pool.State(), roots, t, u, jewelKey) <==> old(pruner.ToCome(t, u, jewelKey))
    ensures forall t :: CountRoots(pruner.pool.State(), roots, t) == old(pruner.CountToCome(t))
  {
    hide AllComplete, Pool.Valid, SkillSplitPruner.Valid, SkillSplitPruner.ToCome, SkillSplitPruner.CountToCome,
      Carries, CountRoots;
    roots := [];
    PrunerState(pruner);
    NoTrees(pruner.pool.State());
    NoneComplete(pruner.pool.State(), pruner.data, pruner.query, pruner.effectId + 1);
    var more := NextSplit(pruner, roots);
    while more
      invariant pruner.Valid() && pruner.source.Valid() && pruner.pool.State().Valid()
      invariant pruner.pool.State().Extends(old(pruner.pool.State()))
      invariant more ==> pruner.buffer != [] && pruner.pool.State().IsOr(pruner.Get().id)
      invariant AllComplete(pruner.pool.State(), pruner.data, pruner.query, roots, pruner.effectId + 1)
      invariant forall t, u, jewelKey ::
        old(pruner.ToCome(t, u, jewelKey)) <==>
        || Carries(pruner.pool.State(), roots, t, u, jewelKey)
        || (more && (Carries(pruner.pool.State(), [pruner.Get()], t, u, jewelKey) || pruner.ToCome(t, u, jewelKey)))
      invariant forall t ::
        old(pruner.CountToCome(t)) ==
        CountRoots(pruner.pool.State(), roots, t)
        + if more then CountRoots(pruner.pool.State(), [pruner.Get()], t) + pruner.CountToCome(t) else 0
      decreases more, |pruner.source.Remaining()|, |pruner.buffer|
    {
      OneMoreDelivered(pruner, roots);
      roots := roots + [pruner.Get()];
      more := NextSplit(pruner, roots);
    }
  }

  /** Before its first tree, a pruner has all that its stage keeps still to come. */
  lemma AllToCome(pruner: SkillSplitPruner)
    requires pruner.Valid() && pruner.buffer == []
    ensures pruner.pool.State().Valid() && pruner.source.Valid() && pruner.effectId < |pruner.query.effects| <= EFFECTS
    ensures forall t, u, jewelKey ::
      pruner.ToCome(t, u, jewelKey) <==>
      SplitsSome(pruner.pool.State(), pruner.data, pruner.query, pruner.source.Remaining(), pruner.effectId, t, u, jewelKey)
    ensures forall t ::
      pruner.CountToCome(t) ==
      SplitCount(pruner.pool.State(), pruner.data, pruner.query, pruner.source.Remaining(), pruner.effectId, t)
  {
    hide AllComplete, Pool.Valid, SplitsSome, SplitCount, Carries, CountRoots;
    NoTrees(pruner.pool.State());
  }

  /** The next tree; what was delivered before stays as it is. */
  method NextSplit(pruner: SkillSplitPruner, ghost roots: seq<TreeRoot>) returns (more: bool)
    requires pruner.Valid() && pruner.effectId < |pruner.query.effects| <= EFFECTS && pruner.pool.State().Valid()
    requires AllComplete(pruner.pool.State(), pruner.data, pruner.query, roots, pruner.effectId + 1)
    modifies pruner, pruner.source, pruner.pool, pruner.clients.Caches()
    ensures pruner.Valid() && pruner.source.Valid() && pruner.pool.State().Valid()
    ensures pruner.pool.State().Extends(old(pruner.pool.State()))
    ensures AllComplete(pruner.pool.State(), pruner.data, pruner.query, roots, pruner.effectId + 1)
    ensures more ==> pruner.buffer != [] && pruner.pool.State().IsOr(pruner.Get().id)
    ensures more ==>
      || |pruner.source.Remaining()| < |old(pruner.source.Remaining())|
      || (pruner.source.Remaining() == old(pruner.source.Remaining()) && |pruner.buffer| < |old(pruner.buffer)|)
    ensures forall t, u, jewelKey ::
      old(pruner.ToCome(t, u, jewelKey)) <==>
      more && (Carries(pruner.pool.State(), [pruner.Get()], t, u, jewelKey) || pruner.ToCome(t, u, jewelKey))
    ensures forall t ::
      old(pruner.CountToCome(t)) ==
      if more then CountRoots(pruner.pool.State(), [pruner.Get()], t) + pruner.CountToCome(t) else 0
    ensures forall t, u, jewelKey ::
      Carries(pruner.pool.State(), roots, t, u, jewelKey) <==> old(Carries(pruner.pool.State(), roots, t, u, jewelKey))
    ensures forall t :: CountRoots(pruner.pool.State(), roots, t) == old(CountRoots(pruner.pool.State(), roots, t))
  {
    hide AllComplete, Pool.Valid, SkillSplitPruner.Valid, SkillSplitPruner.ToCome, SkillSplitPruner.CountToCome,
      Carries, CountRoots;
    ghost var before := pruner.pool.State();
    more := pruner.Next();
    PrunerState(pruner);
    DeliveredStable(before, pruner.pool.State(), pruner.data, pruner.query, roots, pruner.effectId + 1);
  }

  lemma PrunerState(pruner: SkillSplitPruner)
    requires pruner.Valid()
    ensures pruner.pool.State().Valid() && pruner.source.Valid() && pruner.clients.Valid()
    ensures pruner.effectId < |pruner.query.effects| <= EFFECTS
  {
  }

  lemma DeliveredStable(older: Pool, pool: Pool, data: Data, query: Query, roots: seq<TreeRoot>, count: nat)
    requires older.Valid() && pool.Valid() && pool.Extends(older) && count <= |query.effects| <= EFFECTS
    requires AllComplete(older, data, query, roots, count)
    ensures AllComplete(pool, data, query, roots, count)
    ensures forall t, u, jewelKey :: Carries(pool, roots, t, u, jewelKey) <==> Carries(older, roots, t, u, jewelKey)
    ensures forall t :: CountRoots(pool, roots, t) == CountRoots(older, roots, t)
  {
    hide AllComplete, Carries, CountRoots, Pool.Valid;
    CompleteAreOrs(older, data, query, roots, count);
    AllCompleteStable(older, pool, data, query, roots, count);
    forall t, u, jewelKey
      ensures Carries(pool, roots, t, u, jewelKey) <==> Carries(older, roots, t, u, jewelKey)
    {
      CarriesStable(older, pool, roots, t, u, jewelKey);
    }
    forall t
      ensures CountRoots(pool, roots, t) == CountRoots(older, roots, t)
    {
      CountRootsStable(older, pool, roots, t);
    }
  }

  /** The current tree joins those delivered before. */
  lemma OneMoreDelivered(pruner: SkillSplitPruner, roots: seq<TreeRoot>)
    requires pruner.Valid() && pruner.pool.State().Valid() && pruner.effectId < |pruner.query.effects| <= EFFECTS
    requires pruner.buffer != [] && AllComplete(pruner.pool.State(), pruner.data, pruner.query, roots, pruner.effectId + 1)
    ensures var pool, more := pruner.pool.State(), roots + [pruner.Get()];
      && AllComplete(pool, pruner.data, pruner.query, more, pruner.effectId + 1)
      && (forall t, u, jewelKey ::
            Carries(pool, more, t, u, jewelKey) <==>
            Carries(pool, roots, t, u, jewelKey) || Carries(pool, [pruner.Get()], t, u, jewelKey))
      && forall t :: CountRoots(pool, more, t) == CountRoots(pool, roots, t) + CountRoots(pool, [pruner.Get()], t)
  {
    hide Pool.Valid, RootKept, Carries, CountRoots;
    var more := roots + [pruner.Get()];
    assert more[|more| - 1] == pruner.Get() && more[..|more| - 1] == roots;
    TopOf(pruner.pool.State(), pruner.data, pruner.query, more, pruner.effectId + 1);
  }

  // ---------- Unpacked sets ----------

  method DrainSets(unpacker: Unpacker) returns (raws: seq<RawArmorSet>)
    requires unpacker.Valid()
    modifies unpacker, unpacker.source
    ensures raws == old(unpacker.Remaining())
  {
    hide Unpacker.Remaining, Unpacker.Valid;
    raws := [];
    var more := NextSet(unpacker);
    while more
      invariant unpacker.Valid()
      invariant old(unpacker.Remaining()) == if more then raws + [unpacker.armorSet] + unpacker.Remaining() else raws
      invariant !more ==> unpacker.Remaining() == []
      decreases more, |unpacker.Remaining()|
    {
      raws := raws + [unpacker.armorSet];
      more := NextSet(unpacker);
    }
  }

  method NextSet(unpacker: Unpacker) returns (more: bool)
    requires unpacker.Valid()
    modifies unpacker, unpacker.source
    ensures unpacker.Valid()
    ensures old(unpacker.Remaining()) == if more then [unpacker.armorSet] + unpacker.Remaining() else []
    ensures !more ==> unpacker.Remaining() == []
  {
    hide Unpacker.Remaining, Unpacker.Valid;
    more := unpacker.Next();
  }

  method DrainDefended(pruner: DefensePruner) returns (raws: seq<RawArmorSet>)
    requires pruner.Valid()
    modifies pruner.source
    ensures raws == old(pruner.Remaining())
  {
    hide DefensePruner.Remaining, DefensePruner.Valid;
    raws := [];
    var more, raw := NextDefended(pruner);
    while more
      invariant pruner.Valid()
      invariant old(pruner.Remaining()) == if more then raws + [raw] + pruner.Remaining() else raws
      invariant !more ==> pruner.Remaining() == []
      decreases more, |pruner.Remaining()|
    {
      raws := raws + [raw];
      more, raw := NextDefended(pruner);
    }
  }

  method NextDefended(pruner: DefensePruner) returns (more: bool, raw: RawArmorSet)
    requires pruner.Valid()
    modifies pruner.source
    ensures pruner.Valid()
    ensures old(pruner.Remaining()) == if more then [raw] + pruner.Remaining() else []
    ensures !more ==> pruner.Remaining() == []
  {
    hide DefensePruner.Remaining, AllHaveArmors;
    raw := RawArmorSet([], []);
    more := pruner.Next();
    if more {
      raw := pruner.source.Get();
    }
  }
}
