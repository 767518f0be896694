/** Trees with candidate jewel keys, and what the pruners keep true of them. */
module Candidates {
  import opened Signatures
  import opened JewelSums
  import opened JewelPlans
  import opened SlotRecurrence
  import opened SlotClients
  import opened Datasets
  import opened Keys
  import opened NodePools
  import opened AndGroups
  import opened FoundationSteps
  import opened Foundations
  import opened SetTotals
  import opened Unpackers

  // ---------- Inverse keys ----------

  /** Byte `i` of an inverse key, for the effects that `wanted` marks. */
  function InverseByte(effects: seq<Effect>, i: nat, wanted: bool): (c: int)
    requires wanted ==> EFFECTS_BEGIN <= i < EFFECTS_BEGIN + |effects|
    ensures -128 <= c < 128
  {
    if wanted then AsChar(-effects[i - EFFECTS_BEGIN].points) else 0
  }

  /** The required points of the first `count` effects, negated. */
  function InverseKey(effects: seq<Effect>, count: nat): Signature
    requires count <= |effects| <= EFFECTS
  {
    var key := seq(BYTES, i requires 0 <= i < BYTES =>
      InverseByte(effects, i, EFFECTS_BEGIN <= i < EFFECTS_BEGIN + count));
    assert forall i :: 0 <= i < BYTES ==>
      key[i] == InverseByte(effects, i, EFFECTS_BEGIN <= i < EFFECTS_BEGIN + count);
    key
  }

  /** The same for the first `count` effects and effect `extra`. */
  function InverseWith(effects: seq<Effect>, count: nat, extra: nat): Signature
    requires count <= extra < |effects| <= EFFECTS
  {
    var key := seq(BYTES, i requires 0 <= i < BYTES =>
      InverseByte(effects, i, EFFECTS_BEGIN <= i < EFFECTS_BEGIN + count || i == EFFECTS_BEGIN + extra));
    assert forall i :: 0 <= i < BYTES ==>
      key[i] == InverseByte(effects, i, EFFECTS_BEGIN <= i < EFFECTS_BEGIN + count || i == EFFECTS_BEGIN + extra);
    key
  }

  // ---------- The jewels of a query ----------

  function SkillIds(effects: seq<Effect>): seq<int> {
    seq(|effects|, e requires 0 <= e < |effects| => effects[e].id)
  }

  /** The jewels that help with some effect of the query. */
  function QueryClasses(data: Data, query: Query): Classes
    requires |query.effects| <= EFFECTS
  {
    AdmittedClasses(data, SkillIds(query.effects), query.effects, query.jewelFilter)
  }

  /** The jewels that help with effect `e`. */
  function EffectClasses(data: Data, query: Query, e: nat): Classes
    requires e < |query.effects| <= EFFECTS
  {
    AdmittedClasses(data, [query.effects[e].id], query.effects, query.jewelFilter)
  }

  ghost predicate SubClasses(a: Classes, b: Classes) {
    forall size :: 1 <= size <= 3 ==> a[size] <= b[size]
  }

  lemma EffectClassesSub(data: Data, query: Query, e: nat)
    requires e < |query.effects| <= EFFECTS
    ensures SubClasses(EffectClasses(data, query, e), QueryClasses(data, query))
  {
    hide JewelSignature;
    forall size, key | 1 <= size <= 3 && key in EffectClasses(data, query, e)[size]
      ensures key in QueryClasses(data, query)[size]
    {
      var id :| 0 <= id < |data.jewels| && Admits(data, [query.effects[e].id], query.effects, query.jewelFilter, id)
        && data.jewels[id].slots == size && key == JewelSignature(data.jewels[id], query.effects);
      AdmittedByMore(data.jewels[id], query.effects, e);
    }
  }

  lemma AdmittedByMore(jewel: Jewel, effects: seq<Effect>, e: nat)
    requires e < |effects| && JewelValid(jewel, [effects[e].id])
    ensures JewelValid(jewel, SkillIds(effects))
  {
    var s, n :| 0 <= s < 1 && 0 <= n < |jewel.effects| &&
                [effects[e].id][s] == jewel.effects[n].id && jewel.effects[n].points > 0;
    assert SkillIds(effects)[e] == jewel.effects[n].id;
  }

  lemma FromMore(plan: Plan, a: Classes, b: Classes)
    requires SubClasses(a, b) && plan.From(a)
    ensures plan.From(b)
  {
  }

  lemma QueryKeysAreJewelKeys(data: Data, query: Query)
    requires data.Valid() && |query.effects| <= EFFECTS
    ensures AreJewelKeys(QueryClasses(data, query))
  {
    hide JewelSignature;
    forall size, key | 1 <= size <= 3 && key in QueryClasses(data, query)[size]
      ensures IsJewelKey(key, size)
    {
      var id :| 0 <= id < |data.jewels| && Admits(data, SkillIds(query.effects), query.effects, query.jewelFilter, id)
        && data.jewels[id].slots == size && key == JewelSignature(data.jewels[id], query.effects);
      assert data.IsJewel(id);
      JewelPacks(data.jewels[id], query.effects);
    }
  }

  // ---------- Trees ----------

  ghost predicate Ready(data: Data, query: Query) {
    data.Valid() && query.Valid()
  }

  lemma ReadyBounds(data: Data, query: Query)
    requires Ready(data, query)
    ensures 1 <= |query.effects| <= EFFECTS && Asks(query.effects)
    ensures ScopeOf(data, query).Valid()
  {
  }

  /** The tree lists allowed armor sets, and its key packs their slots, multiplier and points in the first `count` effects. */
  ghost predicate TreeKeyed(pool: Pool, data: Data, query: Query, id: int, count: nat)
    requires pool.Valid() && count <= |query.effects| <= EFFECTS
  {
    && pool.IsOr(id) && HasDepth(pool, id, PART_NUM)
    && forall t :: CountOr(pool, id, t) > 0 ==> SetKeyed(data, query, t, count, pool.ors[id].key)
  }

  ghost predicate SetKeyed(data: Data, query: Query, t: seq<int>, count: nat, key: Signature)
    requires count <= |query.effects| <= EFFECTS
  {
    IsWhole(data, t) && ScopeOf(data, query).Chosen(t, 0) && key == Pack(SetFields(data, query.effects[..count], t))
  }

  /** Some admitted jewels that fit the set's slots sum up to the key. */
  ghost predicate HasPlan(data: Data, query: Query, key: Signature, jewelKey: Signature)
    requires |query.effects| <= EFFECTS
  {
    exists plan: Plan ::
      IsPlanFor(plan, jewelKey, QueryClasses(data, query), KeySlots(key), BodySlotSum(key), Multiplier(key))
  }

  /** A tree whose key covers `count` effects, with jewel keys that bring the first `met` effects to what is required. */
  ghost predicate RootKept(pool: Pool, data: Data, query: Query, root: TreeRoot, count: nat, met: nat)
    requires pool.Valid() && met <= |query.effects| <= EFFECTS && count <= |query.effects|
  {
    && TreeKeyed(pool, data, query, root.id, count)
    && root.torsoMultiplier == Multiplier(pool.ors[root.id].key)
    && forall n :: 0 <= n < |root.jewelKeys| ==>
         && HasPlan(data, query, pool.ors[root.id].key, root.jewelKeys[n])
         && Satisfy(Or(pool.ors[root.id].key, root.jewelKeys[n]), InverseKey(query.effects, met))
  }

  /** The key of a tree is that of an allowed armor set; this bounds its slots. */
  lemma TreeSlots(pool: Pool, data: Data, query: Query, id: int, count: nat)
    requires pool.Valid() && Ready(data, query) && count <= |query.effects| && TreeKeyed(pool, data, query, id, count)
    ensures var key := pool.ors[id].key;
      && KeySlots(key).Valid() && KeySlots(key).Weight() <= 21 && KeySlots(key).two + KeySlots(key).three <= 7
      && InCache(KeySlots(key).one, KeySlots(key).two, KeySlots(key).three)
      && 0 <= BodySlotSum(key) <= 3 && 1 <= Multiplier(key) <= 5
  {
    hide Pack, SetFields, KeySlots, BodySlotSum, Multiplier, Data.Valid;
    var t := SomeSet(pool, id);
    assert SetKeyed(data, query, t, count, pool.ors[id].key);
    WholeReadsBack(data, query.effects[..count], t);
    WholeBounds(data, t);
  }

  /** Every tree of the foundation is keyed by its armor sets. */
  lemma FoundationKeyed(pool: Pool, data: Data, query: Query, forest: seq<int>, n: nat)
    requires pool.Valid() && Ready(data, query) && ScopeOf(data, query).Valid() && n < |forest|
    requires IsForest(pool, ScopeOf(data, query), forest, 0, PART_NUM)
    ensures FoundationCount(query) <= |query.effects| <= EFFECTS
    ensures TreeKeyed(pool, data, query, forest[n], FoundationCount(query))
  {
    hide CountOr, CountForest, HasDepth, Data.Valid, Scope.KeyOf, Pack, SetFields;
    var scope := ScopeOf(data, query);
    assert TreeOk(pool, scope, forest[n], PART_NUM);
    assert FoundationEffects(query.effects) == query.effects[..FoundationCount(query)];
    forall t | CountOr(pool, forest[n], t) > 0
      ensures SetKeyed(data, query, t, FoundationCount(query), pool.ors[forest[n]].key)
    {
      CountForestMember(pool, forest, n, t);
      assert scope.HasKey(t, pool.ors[forest[n]].key);
      ChosenIsWhole(data, query, t);
      WholeKey(scope, t);
    }
  }

  function FoundationCount(query: Query): nat {
    if |query.effects| < FOUNDATION_NUM then |query.effects| else FOUNDATION_NUM
  }

  lemma ChosenIsWhole(data: Data, query: Query, t: seq<int>)
    requires |t| == PART_NUM && ScopeOf(data, query).Chosen(t, 0)
    ensures IsWhole(data, t)
  {
    forall i | 0 <= i < PART_NUM
      ensures data.IsArmor(t[i]) && data.armors[t[i]].part == PART_NUM - 1 - i
    {
      assert ScopeOf(data, query).IsChoice(t[i], 0 + |t| - 1 - i);
    }
  }
}
