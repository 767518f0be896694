/** Keeping the trees that jewels for one more effect can complete. */
module JewelPruners {
  import opened Packing
  import opened Signatures
  import opened SlotRecurrence
  import opened SlotClients
  import opened Datasets
  import opened NodePools
  import opened Iterators
  import opened Unpackers
  import opened Candidates
  import opened Residuals

  /** `jewelKey` extends the jewels of the tree by jewels for the effect, and the points suffice. */
  ghost predicate IsCandidate(pool: Pool, classes: Classes, inverse: Signature, root: TreeRoot, jewelKey: Signature) {
    && pool.IsOr(root.id)
    && var key := pool.ors[root.id].key;
    && Satisfy(Or(key, jewelKey), inverse)
    && if root.jewelKeys == [] then jewelKey in FillAll(classes, key)
       else ExtendsSome(classes, key, root.jewelKeys, jewelKey)
  }

  ghost predicate ExtendsSome(classes: Classes, key: Signature, existing: seq<Signature>, jewelKey: Signature) {
    exists n :: 0 <= n < |existing| && ExtendsBy(classes, key, existing[n], jewelKey)
  }

  lemma ExtendsNone(classes: Classes, key: Signature)
    ensures forall jewelKey :: !ExtendsSome(classes, key, [], jewelKey)
  {
  }

  lemma ExtendsOneMore(classes: Classes, key: Signature, existing: seq<Signature>, n: nat)
    requires n < |existing|
    ensures forall jewelKey :: ExtendsSome(classes, key, existing[..n + 1], jewelKey) <==>
      ExtendsSome(classes, key, existing[..n], jewelKey) || ExtendsBy(classes, key, existing[n], jewelKey)
  {
    hide ExtendsBy;
    forall jewelKey
      ensures ExtendsSome(classes, key, existing[..n + 1], jewelKey) <==>
        ExtendsSome(classes, key, existing[..n], jewelKey) || ExtendsBy(classes, key, existing[n], jewelKey)
    {
      assert existing[..n + 1][n] == existing[n];
      assert forall m :: 0 <= m < n ==> existing[..n + 1][m] == existing[..n][m];
    }
  }

  ghost predicate ExtendsBy(classes: Classes, key: Signature, existing: Signature, jewelKey: Signature) {
    exists more :: more in FillLeft(classes, key, existing) && jewelKey == Add(existing, more)
  }

  /** `out` is `root` with its candidates, of which there are some. */
  ghost predicate IsPruned(pool: Pool, classes: Classes, inverse: Signature, root: TreeRoot, out: TreeRoot) {
    && out.id == root.id && out.torsoMultiplier == root.torsoMultiplier && out.jewelKeys != []
    && forall jewelKey :: jewelKey in out.jewelKeys <==> IsCandidate(pool, classes, inverse, root, jewelKey)
  }

  /** The tree has no candidate. */
  ghost predicate Hopeless(pool: Pool, classes: Classes, inverse: Signature, root: TreeRoot) {
    forall jewelKey :: !IsCandidate(pool, classes, inverse, root, jewelKey)
  }

  ghost predicate AllHopeless(pool: Pool, classes: Classes, inverse: Signature, roots: seq<TreeRoot>) {
    forall n :: 0 <= n < |roots| ==> Hopeless(pool, classes, inverse, roots[n])
  }

  lemma NoneHopeless(pool: Pool, classes: Classes, inverse: Signature)
    ensures AllHopeless(pool, classes, inverse, [])
  {
  }

  lemma OneMoreHopeless(pool: Pool, classes: Classes, inverse: Signature, roots: seq<TreeRoot>, n: nat)
    requires n < |roots| && AllHopeless(pool, classes, inverse, roots[..n])
    requires Hopeless(pool, classes, inverse, roots[n])
    ensures AllHopeless(pool, classes, inverse, roots[..n + 1])
  {
    hide Hopeless;
    assert roots[..n + 1] == roots[..n] + [roots[n]];
  }

  ghost predicate AllKept(pool: Pool, data: Data, query: Query, roots: seq<TreeRoot>, count: nat, met: nat)
    requires pool.Valid() && met <= |query.effects| <= EFFECTS && count <= |query.effects|
  {
    forall n :: 0 <= n < |roots| ==> RootKept(pool, data, query, roots[n], count, met)
  }

  /** Pruning keeps the invariant, with one more effect met. */
  lemma PrunedKept(pool: Pool, data: Data, query: Query, root: TreeRoot, out: TreeRoot, count: nat, e: nat)
    requires pool.Valid() && Ready(data, query) && count <= |query.effects| <= EFFECTS && e < |query.effects|
    requires RootKept(pool, data, query, root, count, e)
    requires IsPruned(pool, EffectClasses(data, query, e), InverseKey(query.effects, e + 1), root, out)
    ensures RootKept(pool, data, query, out, count, e + 1)
  {
    hide Satisfy, Or, InverseKey, FillLeft, FillAll, TreeKeyed, HasPlan, EffectClasses, QueryClasses;
    var classes, inverse := EffectClasses(data, query, e), InverseKey(query.effects, e + 1);
    EffectClassesSub(data, query, e);
    TreeSlots(pool, data, query, root.id, count);
    KeptIsOr(pool, data, query, root, count, e);
    var key := pool.ors[root.id].key;
    forall n | 0 <= n < |out.jewelKeys|
      ensures HasPlan(data, query, key, out.jewelKeys[n]) && Satisfy(Or(key, out.jewelKeys[n]), inverse)
    {
      var jewelKey := out.jewelKeys[n];
      assert IsCandidate(pool, classes, inverse, root, jewelKey);
      if root.jewelKeys == [] {
        PlanForAll(data, query, classes, key, jewelKey);
      } else {
        var m :| 0 <= m < |root.jewelKeys| && ExtendsBy(classes, key, root.jewelKeys[m], jewelKey);
        var more :| more in FillLeft(classes, key, root.jewelKeys[m]) && jewelKey == Add(root.jewelKeys[m], more);
        PlanForLeft(data, query, classes, key, root.jewelKeys[m], more);
      }
    }
  }

  class JewelPruner {
    const data: Data
    const query: Query
    const effectId: nat
    const source: ListIterator<TreeRoot>
    const pool: NodePool
    const slotClient: SlotClient
    const inversePoints: Signature
    var current: TreeRoot

    ghost predicate Valid()
      reads this, source, pool, slotClient, slotClient.buffer, slotClient.fixedBuffer
    {
      && Ready(data, query) && effectId < |query.effects| <= EFFECTS
      && pool.State().Valid() && source.Valid() && slotClient.Valid()
      && slotClient.classes == EffectClasses(data, query, effectId)
      && inversePoints == InverseKey(query.effects, effectId + 1)
      && AllKept(pool.State(), data, query, source.Remaining(), FoundationCount(query), effectId)
    }

    constructor (source: ListIterator<TreeRoot>, pool: NodePool, data: Data, query: Query, effectId: nat)
      requires Ready(data, query) && effectId < |query.effects| <= EFFECTS
      requires pool.State().Valid() && source.Valid()
      requires AllKept(pool.State(), data, query, source.Remaining(), FoundationCount(query), effectId)
      ensures Valid() && fresh(slotClient.buffer) && fresh(slotClient.fixedBuffer)
      ensures this.source == source && this.pool == pool && this.data == data && this.query == query
      ensures this.effectId == effectId
    {
      this.data, this.query, this.effectId := data, query, effectId;
      this.source, this.pool := source, pool;
      inversePoints := InverseKey(query.effects, effectId + 1);
      current := TreeRoot(0, [], 1);
      slotClient := new SlotClient(data, [query.effects[effectId].id], query.effects, query.jewelFilter);
    }

    /** The next tree with candidates; the `skipped` trees before it have none. */
    method Next() returns (more: bool, ghost skipped: nat)
      requires Valid()
      modifies this, source, slotClient.buffer, slotClient.fixedBuffer
      ensures Valid()
      ensures skipped <= |old(source.Remaining())| && more == (skipped < |old(source.Remaining())|)
      ensures AllHopeless(pool.State(), slotClient.classes, inversePoints, old(source.Remaining())[..skipped])
      ensures more ==>
        && RootKept(pool.State(), data, query, current, FoundationCount(query), effectId + 1) && current.jewelKeys != []
        && pool.State().IsOr(old(source.Remaining())[skipped].id)
        && IsPruned(pool.State(), slotClient.classes, inversePoints, old(source.Remaining())[skipped], current)
        && source.Remaining() == old(source.Remaining())[skipped + 1..]
      ensures !more ==> source.Remaining() == []
    {
      hide RootKept, IsPruned, Ready, EffectClasses, InverseKey, AllKept, AllHopeless, Hopeless, Pool.Valid, SlotClient.Valid;
      ghost var roots := source.Remaining();
      skipped := 0;
      assert roots[0..] == roots && roots[..0] == [];
      NoneHopeless(pool.State(), slotClient.classes, inversePoints);
      var some, kept := TryNext();
      while some && !kept
        invariant Valid() && skipped <= |roots| && some == (skipped < |roots|)
        invariant AllHopeless(pool.State(), slotClient.classes, inversePoints, roots[..skipped])
        invariant some ==> source.Remaining() == roots[skipped + 1..] && Tried(roots[skipped], kept)
        invariant !some ==> source.Remaining() == []
        decreases |roots| - skipped, some
      {
        OneMoreHopeless(pool.State(), slotClient.classes, inversePoints, roots, skipped);
        skipped := skipped + 1;
        some, kept := TryNext();
      }
      more := some;
    }

    /** What trying a tree has found out. */
    ghost predicate Tried(root: TreeRoot, kept: bool)
      requires Valid()
      reads this, source, pool, slotClient, slotClient.buffer, slotClient.fixedBuffer
    {
      && pool.State().IsOr(root.id)
      && if kept then
           && RootKept(pool.State(), data, query, current, FoundationCount(query), effectId + 1) && current.jewelKeys != []
           && IsPruned(pool.State(), slotClient.classes, inversePoints, root, current)
         else Hopeless(pool.State(), slotClient.classes, inversePoints, root)
    }

    /** Takes one tree from the source, if there is one, and tries it. */
    method TryNext() returns (some: bool, kept: bool)
      requires Valid()
      modifies this, source, slotClient.buffer, slotClient.fixedBuffer
      ensures Valid()
      ensures some == (old(source.Remaining()) != [])
      ensures some ==> source.Remaining() == old(source.Remaining())[1..] && Tried(old(source.Remaining())[0], kept)
      ensures !some ==> source.Remaining() == []
    {
      hide RootKept, IsPruned, Ready, EffectClasses, InverseKey, AllKept, Hopeless, Pool.Valid, SlotClient.Valid;
      ghost var roots := source.Remaining();
      some := source.Next();
      kept := false;
      if some {
        AllKeptAt(pool.State(), data, query, roots, FoundationCount(query), effectId, 0);
        AllKeptRest(pool.State(), data, query, roots, FoundationCount(query), effectId, 1);
        kept := TryRoot(source.Get());
      } else {
        NoneKept(pool.State(), data, query, FoundationCount(query), effectId);
      }
    }

    /** The tree with its candidates becomes current, if there are any. */
    method TryRoot(root: TreeRoot) returns (kept: bool)
      requires Valid() && RootKept(pool.State(), data, query, root, FoundationCount(query), effectId)
      requires pool.State().IsOr(root.id)
      modifies this, slotClient.buffer, slotClient.fixedBuffer
      ensures Valid()
      ensures kept ==>
        && RootKept(pool.State(), data, query, current, FoundationCount(query), effectId + 1) && current.jewelKeys != []
        && IsPruned(pool.State(), slotClient.classes, inversePoints, root, current)
      ensures !kept ==> Hopeless(pool.State(), slotClient.classes, inversePoints, root)
    {
      hide RootKept, IsPruned, IsCandidate, Ready, EffectClasses, InverseKey, AllKept;
      var jewelKeys := Collect(root);
      current := TreeRoot(root.id, jewelKeys, root.torsoMultiplier);
      kept := jewelKeys != [];
      if kept {
        IsPrunedRoot(pool.State(), slotClient.classes, inversePoints, root, current);
        PrunedKept(pool.State(), data, query, root, current, FoundationCount(query), effectId);
      }
    }

    /** All candidates of a tree. */
    method Collect(root: TreeRoot) returns (jewelKeys: seq<Signature>)
      requires Valid() && RootKept(pool.State(), data, query, root, FoundationCount(query), effectId)
      requires pool.State().IsOr(root.id)
      modifies slotClient.buffer, slotClient.fixedBuffer
      ensures slotClient.Valid()
      ensures forall jewelKey :: jewelKey in jewelKeys <==>
        IsCandidate(pool.State(), slotClient.classes, inversePoints, root, jewelKey)
    {
      hide RootKept, TreeKeyed, InverseKey, EffectClasses, Satisfy, Or, FillAll, FillLeft, Ready, AllKept, ExtendsSome;
      RootSlots(pool.State(), data, query, root, FoundationCount(query), effectId);
      var key := pool.ors[root.id].key;
      if root.jewelKeys == [] {
        var slots := KeySlots(key);
        var answer := slotClient.Query(slots.one, slots.two, slots.three, BodySlotSum(key), Multiplier(key));
        FillAllIs(slotClient.classes, key);
        jewelKeys := SelectAll(key, answer);
      } else {
        jewelKeys := CollectExtended(root);
      }
    }

    /** The candidates of a tree that has jewel keys already. */
    method CollectExtended(root: TreeRoot) returns (jewelKeys: seq<Signature>)
      requires Valid() && RootKept(pool.State(), data, query, root, FoundationCount(query), effectId)
      requires pool.State().IsOr(root.id) && SlotsInBounds(pool.ors[root.id].key)
      requires root.torsoMultiplier == Multiplier(pool.ors[root.id].key)
      modifies slotClient.buffer, slotClient.fixedBuffer
      ensures slotClient.Valid()
      ensures forall jewelKey :: jewelKey in jewelKeys <==>
        && Satisfy(Or(pool.ors[root.id].key, jewelKey), inversePoints)
        && ExtendsSome(slotClient.classes, pool.ors[root.id].key, root.jewelKeys, jewelKey)
    {
      hide RootKept, InverseKey, EffectClasses, Satisfy, Or, Ready, ExtendsBy, ExtendsSome, SlotsInBounds, AllKept, HasPlan, Pool.Valid;
      var key := pool.ors[root.id].key;
      jewelKeys := [];
      ExtendsNone(slotClient.classes, key);
      assert root.jewelKeys[..0] == [];
      for n := 0 to |root.jewelKeys|
        invariant Valid()
        invariant forall jewelKey :: jewelKey in jewelKeys <==>
          Satisfy(Or(key, jewelKey), inversePoints) && ExtendsSome(slotClient.classes, key, root.jewelKeys[..n], jewelKey)
      {
        ExtendsOneMore(slotClient.classes, key, root.jewelKeys, n);
        RootPlan(pool.State(), data, query, root, FoundationCount(query), effectId, n);
        var selected := CollectMore(key, root.jewelKeys[n], root.torsoMultiplier);
        jewelKeys := jewelKeys + selected;
      }
      assert root.jewelKeys[..|root.jewelKeys|] == root.jewelKeys;
    }

    method CollectMore(key: Signature, existing: Signature, multiplier: int) returns (jewelKeys: seq<Signature>)
      requires Valid() && SlotsInBounds(key) && HasPlan(data, query, key, existing) && multiplier == Multiplier(key)
      modifies slotClient.buffer, slotClient.fixedBuffer
      ensures slotClient.Valid()
      ensures forall jewelKey :: jewelKey in jewelKeys <==>
        Satisfy(Or(key, jewelKey), inversePoints) && ExtendsBy(slotClient.classes, key, existing, jewelKey)
    {
      hide InverseKey, EffectClasses, Satisfy, Or, FillLeft, Ready, AllKept, HasPlan, ExtendsBy, Fill, Residual;
      var i, j, k, extra := SlotClient.GetResidual(key, existing);
      LeftInCache(data, query, key, existing);
      var answer := slotClient.Query(i, j, k, extra, multiplier);
      FillLeftIs(slotClient.classes, key, existing);
      jewelKeys := SelectMore(key, existing, answer);
    }

    method SelectAll(key: Signature, answer: set<Signature>) returns (jewelKeys: seq<Signature>)
      ensures forall jewelKey :: jewelKey in jewelKeys <==>
        jewelKey in answer && Satisfy(Or(key, jewelKey), inversePoints)
    {
      jewelKeys := [];
      var rest := answer;
      while rest != {}
        invariant rest <= answer
        invariant forall jewelKey :: jewelKey in jewelKeys <==>
          jewelKey in answer - rest && Satisfy(Or(key, jewelKey), inversePoints)
      {
        hide Satisfy, Or;
        var jewelKey :| jewelKey in rest;
        if Satisfy(Or(key, jewelKey), inversePoints) {
          jewelKeys := jewelKeys + [jewelKey];
        }
        rest := rest - {jewelKey};
      }
    }

    method SelectMore(key: Signature, existing: Signature, answer: set<Signature>) returns (jewelKeys: seq<Signature>)
      requires answer == FillLeft(slotClient.classes, key, existing)
      ensures forall jewelKey :: jewelKey in jewelKeys <==>
        Satisfy(Or(key, jewelKey), inversePoints) && ExtendsBy(slotClient.classes, key, existing, jewelKey)
    {
      hide Satisfy, Or, FillLeft, Add;
      jewelKeys := [];
      var key0 := Or(key, existing);
      var rest := answer;
      while rest != {}
        invariant rest <= answer
        invariant forall jewelKey :: jewelKey in jewelKeys <==>
          Satisfy(Or(key, jewelKey), inversePoints) && exists more :: more in answer - rest && jewelKey == Add(existing, more)
      {
        var more :| more in rest;
        OrOfSum(key, existing, more);
        if Satisfy(Or(key0, more), inversePoints) {
          jewelKeys := jewelKeys + [Add(existing, more)];
        }
        rest := rest - {more};
      }
    }
  }

  lemma IsPrunedRoot(pool: Pool, classes: Classes, inverse: Signature, root: TreeRoot, out: TreeRoot)
    requires out.id == root.id && out.torsoMultiplier == root.torsoMultiplier && out.jewelKeys != []
    requires forall jewelKey :: jewelKey in out.jewelKeys <==> IsCandidate(pool, classes, inverse, root, jewelKey)
    ensures IsPruned(pool, classes, inverse, root, out)
  {
  }

  lemma KeptIsOr(pool: Pool, data: Data, query: Query, root: TreeRoot, count: nat, met: nat)
    requires pool.Valid() && met <= |query.effects| <= EFFECTS && count <= |query.effects|
    requires RootKept(pool, data, query, root, count, met)
    ensures pool.IsOr(root.id)
  {
  }

  lemma RootSlots(pool: Pool, data: Data, query: Query, root: TreeRoot, count: nat, met: nat)
    requires pool.Valid() && Ready(data, query) && met <= |query.effects| <= EFFECTS && count <= |query.effects|
    requires RootKept(pool, data, query, root, count, met)
    ensures pool.IsOr(root.id) && SlotsInBounds(pool.ors[root.id].key)
    ensures var slots := KeySlots(pool.ors[root.id].key); InCache(slots.one, slots.two, slots.three)
    ensures root.torsoMultiplier == Multiplier(pool.ors[root.id].key)
  {
    TreeSlots(pool, data, query, root.id, count);
  }

  lemma RootPlan(pool: Pool, data: Data, query: Query, root: TreeRoot, count: nat, met: nat, n: nat)
    requires pool.Valid() && met <= |query.effects| <= EFFECTS && count <= |query.effects|
    requires RootKept(pool, data, query, root, count, met) && n < |root.jewelKeys|
    ensures pool.IsOr(root.id) && HasPlan(data, query, pool.ors[root.id].key, root.jewelKeys[n])
    ensures Satisfy(Or(pool.ors[root.id].key, root.jewelKeys[n]), InverseKey(query.effects, met))
  {
  }

  lemma AllKeptAt(pool: Pool, data: Data, query: Query, roots: seq<TreeRoot>, count: nat, met: nat, n: nat)
    requires pool.Valid() && met <= |query.effects| <= EFFECTS && count <= |query.effects|
    requires AllKept(pool, data, query, roots, count, met) && n < |roots|
    ensures RootKept(pool, data, query, roots[n], count, met) && pool.IsOr(roots[n].id)
  {
  }

  lemma NoneKept(pool: Pool, data: Data, query: Query, count: nat, met: nat)
    requires pool.Valid() && met <= |query.effects| <= EFFECTS && count <= |query.effects|
    ensures AllKept(pool, data, query, [], count, met)
  {
  }

  lemma AllKeptRest(pool: Pool, data: Data, query: Query, roots: seq<TreeRoot>, count: nat, met: nat, n: nat)
    requires pool.Valid() && met <= |query.effects| <= EFFECTS && count <= |query.effects|
    requires AllKept(pool, data, query, roots, count, met) && n <= |roots|
    ensures AllKept(pool, data, query, roots[n..], count, met)
  {
    hide RootKept;
  }
}
