/** Unpacked armor sets with the keys of the jewels that complete them. */
module RawSets {
  import opened Signatures
  import opened JewelPlans
  import opened Datasets
  import opened NodePools
  import opened Enumerations
  import opened Unpackers
  import opened SetTotals
  import opened Stats
  import opened Iterators
  import opened Candidates
  import opened PointBounds
  import opened SplitPruning
  import opened SplitStages

  /** With the jewels of the key, which fit, the set has the points required in every effect. */
  ghost predicate Completes(data: Data, query: Query, t: seq<int>, jewelKey: Signature)
    requires |query.effects| <= EFFECTS
  {
    && IsAllowed(data, query, t)
    && (exists plan: Plan :: PlanFits(data, query, t, plan, jewelKey))
    && forall e :: 0 <= e < |query.effects| ==>
         SetPoints(data, t, query.effects[e].id) + GetPoints(jewelKey, e) >= query.effects[e].points
  }

  ghost predicate PlanFits(data: Data, query: Query, t: seq<int>, plan: Plan, jewelKey: Signature)
    requires |query.effects| <= EFFECTS && IsWholeArmors(data, t)
  {
    IsPlanFor(plan, jewelKey, QueryClasses(data, query), FreeSlots(data, t), BodySpace(data, t), Multiplied(data, t))
  }

  /** Some jewel key completes the set. */
  ghost predicate Completable(data: Data, query: Query, t: seq<int>)
    requires |query.effects| <= EFFECTS
  {
    exists jewelKey :: Completes(data, query, t, jewelKey)
  }

  ghost predicate RawKept(data: Data, query: Query, raw: RawArmorSet)
    requires |query.effects| <= EFFECTS
  {
    && IsAllowed(data, query, raw.ids) && raw.jewelKeys != []
    && forall n :: 0 <= n < |raw.jewelKeys| ==> Completes(data, query, raw.ids, raw.jewelKeys[n])
  }

  ghost predicate AllRawKept(data: Data, query: Query, raws: seq<RawArmorSet>)
    requires |query.effects| <= EFFECTS
  {
    forall n :: 0 <= n < |raws| ==> RawKept(data, query, raws[n])
  }

  /** Passing the byte test is having the points. */
  lemma SatisfiedMeans(data: Data, query: Query, t: seq<int>, key: Signature, jewelKey: Signature, met: nat, count: nat)
    requires Ready(data, query) && |query.effects| <= EFFECTS && NoOverflow(data, query) && met <= count <= |query.effects|
    requires SetKeyed(data, query, t, count, key) && HasPlan(data, query, key, jewelKey)
    ensures Satisfy(Or(key, jewelKey), InverseKey(query.effects, met)) ==>
      forall e :: 0 <= e < met ==>
        SetPoints(data, t, query.effects[e].id) + GetPoints(jewelKey, e) >= query.effects[e].points
  {
    hide Pack, SetFields, NoOverflow, SetPoints, HasPlan, AsChar, Data.Valid, Query.Valid, Satisfy, InverseKey, IsWhole;
    WholeIsArmors(data, t);
    if Satisfy(Or(key, jewelKey), InverseKey(query.effects, met)) {
      forall e | 0 <= e < met
        ensures SetPoints(data, t, query.effects[e].id) + GetPoints(jewelKey, e) >= query.effects[e].points
      {
        NoWrap(data, query, t, count, key, jewelKey, e);
        OrByte(data, query, t, key, jewelKey, count, e);
        RequiredByte(query, e, met);
        SatisfiedByte(Or(key, jewelKey), InverseKey(query.effects, met), EFFECTS_BEGIN + e);
      }
    }
  }

  lemma OrByte(data: Data, query: Query, t: seq<int>, key: Signature, jewelKey: Signature, count: nat, e: nat)
    requires Ready(data, query) && e < count <= |query.effects| <= EFFECTS && SetKeyed(data, query, t, count, key)
    requires InByte(SetPoints(data, t, query.effects[e].id) + GetPoints(jewelKey, e))
    ensures Or(key, jewelKey)[EFFECTS_BEGIN + e] == SetPoints(data, t, query.effects[e].id) + GetPoints(jewelKey, e)
  {
    hide Pack, SetFields, SetPoints, AsChar, Data.Valid, Query.Valid, IsWhole;
    WholeIsArmors(data, t);
    WholeReadsBack(data, query.effects[..count], t);
    var p, g := SetPoints(data, t, query.effects[e].id), GetPoints(jewelKey, e);
    AsCharAdd(p, g);
    SmallChar(p + g);
    SmallChar(g);
  }

  /** Every armor set of a completed tree is completed by each of the tree's jewel keys. */
  lemma SetOfRootCompletes(pool: Pool, data: Data, query: Query, root: TreeRoot, t: seq<int>, n: nat)
    requires pool.Valid() && Ready(data, query) && |query.effects| <= EFFECTS && NoOverflow(data, query)
    requires RootKept(pool, data, query, root, |query.effects|, |query.effects|) && n < |root.jewelKeys|
    requires pool.IsOr(root.id) && CountOr(pool, root.id, t) > 0
    ensures Completes(data, query, t, root.jewelKeys[n])
  {
    hide NoOverflow, Satisfy, Or, InverseKey, CountOr, Data.Valid, Query.Valid, HasDepth, HasPlan, SetKeyed, Completes;
    assert SetKeyed(data, query, t, |query.effects|, pool.ors[root.id].key);
    PlannedCompletes(data, query, t, pool.ors[root.id].key, root.jewelKeys[n]);
  }

  /** A planned key that passes the test for all effects completes the set. */
  lemma PlannedCompletes(data: Data, query: Query, t: seq<int>, key: Signature, jewelKey: Signature)
    requires Ready(data, query) && |query.effects| <= EFFECTS && NoOverflow(data, query)
    requires SetKeyed(data, query, t, |query.effects|, key) && HasPlan(data, query, key, jewelKey)
    requires Satisfy(Or(key, jewelKey), InverseKey(query.effects, |query.effects|))
    ensures Completes(data, query, t, jewelKey)
  {
    hide Pack, SetFields, SetPoints, NoOverflow, Satisfy, Or, InverseKey, Data.Valid, Query.Valid, IsPlanFor,
      KeySlots, BodySlotSum, Multiplier, GetPoints, IsWhole;
    SatisfiedMeans(data, query, t, key, jewelKey, |query.effects|, |query.effects|);
    WholeReadsBack(data, query.effects, t);
    assert query.effects[..|query.effects|] == query.effects;
    assert IsWhole(data, t) && IsAllowed(data, query, t);
    WholeIsArmors(data, t);
    var plan: Plan :| IsPlanFor(plan, jewelKey, QueryClasses(data, query), KeySlots(key), BodySlotSum(key), Multiplier(key));
    assert PlanFits(data, query, t, plan, jewelKey);
  }

  lemma WholeIsArmors(data: Data, t: seq<int>)
    requires IsWhole(data, t)
    ensures IsWholeArmors(data, t)
  {
  }

  /** Unpacking completed trees gives completed sets. */
  lemma {:induction false} UnpackedKept(pool: Pool, data: Data, query: Query, roots: seq<TreeRoot>)
    requires pool.Valid() && Ready(data, query) && |query.effects| <= EFFECTS && NoOverflow(data, query)
    requires AllComplete(pool, data, query, roots, |query.effects|)
    ensures RootsOk(pool, roots) && AllRawKept(data, query, SetsOfRoots(pool, roots))
  {
    hide HasPlan, Satisfy, NoOverflow, SetKeyed, Completes, EnumOr, CountOr, IsAllowed, Data.Valid, Query.Valid;
    forall n | 0 <= n < |roots|
      ensures RootOk(pool, roots[n])
    {
      assert RootKept(pool, data, query, roots[n], |query.effects|, |query.effects|);
    }
    if roots != [] {
      var root := roots[0];
      UnpackedKept(pool, data, query, roots[1..]);
      FirstRoot(pool, roots);
      var sets := EnumOr(pool, root.id);
      assert RootKept(pool, data, query, root, |query.effects|, |query.effects|);
      forall i | 0 <= i < |sets|
        ensures RawKept(data, query, RawArmorSet(sets[i], root.jewelKeys))
      {
        EnumOrCount(pool, root.id, sets[i]);
        assert sets[i] in multiset(sets);
        forall n | 0 <= n < |root.jewelKeys|
          ensures Completes(data, query, sets[i], root.jewelKeys[n])
        {
          SetOfRootCompletes(pool, data, query, root, sets[i], n);
        }
        CompletesAllowed(data, query, sets[i], root.jewelKeys[0]);
      }
      var first, rest := WithKeys(sets, root.jewelKeys), SetsOfRoots(pool, roots[1..]);
      forall n | 0 <= n < |first + rest|
        ensures RawKept(data, query, (first + rest)[n])
      {
        if n >= |first| {
          assert (first + rest)[n] == rest[n - |first|];
        }
      }
    }
  }

  lemma CompletesAllowed(data: Data, query: Query, t: seq<int>, jewelKey: Signature)
    requires |query.effects| <= EFFECTS && Completes(data, query, t, jewelKey)
    ensures IsAllowed(data, query, t) && IsWholeArmors(data, t) && |t| == PART_NUM
  {
  }

  // ---------- Defense ----------

  predicate AllHaveArmors(data: Data, raws: seq<RawArmorSet>) {
    forall n :: 0 <= n < |raws| ==> AreArmors(data, raws[n].ids)
  }

  /** The sets whose armors all together have at least `min` defense. */
  function Defended(data: Data, raws: seq<RawArmorSet>, min: int): seq<RawArmorSet>
    requires AllHaveArmors(data, raws)
  {
    if raws == [] then []
    else (if Defense(data, raws[0].ids) >= min then [raws[0]] else []) + Defended(data, raws[1..], min)
  }

  class DefensePruner {
    const data: Data
    const minDefense: int
    const source: ListIterator<RawArmorSet>

    ghost predicate Valid()
      reads source
    {
      source.Valid() && AllHaveArmors(data, source.Remaining())
    }

    ghost function Remaining(): seq<RawArmorSet>
      requires Valid()
      reads source
    {
      Defended(data, source.Remaining(), minDefense)
    }

    constructor (source: ListIterator<RawArmorSet>, data: Data, minDefense: int)
      requires source.Valid() && AllHaveArmors(data, source.Remaining())
      ensures Valid() && this.source == source && this.data == data && this.minDefense == minDefense
    {
      this.source := source;
      this.data := data;
      this.minDefense := minDefense;
    }

    method Next() returns (more: bool)
      requires Valid()
      modifies source
      ensures Valid() && (more <==> old(Remaining()) != [])
      ensures more ==> !source.Empty() && source.Get() == old(Remaining())[0] && Remaining() == old(Remaining())[1..]
      ensures !more ==> Remaining() == []
    {
      hide Defended, Defense, AllHaveArmors;
      ghost var raws, goal := source.Remaining(), Remaining();
      var some := source.Next();
      while some
        invariant source.Valid() && AllHaveArmors(data, raws) && goal == Defended(data, raws, minDefense)
        invariant some ==> raws != [] && !source.Empty() && source.Get() == raws[0] && source.Remaining() == raws[1..]
        invariant !some ==> raws == [] && source.Remaining() == []
        decreases |raws|
      {
        DefendedStep(data, raws, minDefense);
        var defense := SumDefense(data, source.Get().ids);
        if defense >= minDefense {
          return true;
        }
        raws := source.Remaining();
        some := source.Next();
      }
      NoneDefended(data, minDefense);
      more := false;
    }
  }

  lemma DefendedStep(data: Data, raws: seq<RawArmorSet>, min: int)
    requires raws != [] && AllHaveArmors(data, raws)
    ensures AreArmors(data, raws[0].ids) && AllHaveArmors(data, raws[1..])
    ensures Defended(data, raws, min)
         == (if Defense(data, raws[0].ids) >= min then [raws[0]] else []) + Defended(data, raws[1..], min)
  {
  }

  lemma NoneDefended(data: Data, min: int)
    ensures AllHaveArmors(data, []) && Defended(data, [], min) == []
  {
  }

  /** What the filter keeps was there before, and has the defense. */
  lemma {:induction false} DefendedKept(data: Data, query: Query, raws: seq<RawArmorSet>, min: int)
    requires |query.effects| <= EFFECTS && AllRawKept(data, query, raws)
    ensures AllHaveArmors(data, raws) && AllRawKept(data, query, Defended(data, raws, min))
    ensures forall n :: 0 <= n < |Defended(data, raws, min)| ==>
      AreArmors(data, Defended(data, raws, min)[n].ids) && Defense(data, Defended(data, raws, min)[n].ids) >= min
  {
    hide Completes;
    assert forall n :: 0 <= n < |raws| ==> RawKept(data, query, raws[n]);
    if raws != [] {
      DefendedKept(data, query, raws[1..], min);
    }
  }
}
