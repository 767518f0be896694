/** Splitting trees by one more effect and keeping the parts that jewels can complete. */
module SkillSplitPruners {
  import opened Signatures
  import opened SlotRecurrence
  import opened Datasets
  import opened NodePools
  import opened AndGroups
  import opened Scorings
  import opened Foundations
  import opened SplitSteps
  import opened SkillSplitters
  import opened Iterators
  import opened Unpackers
  import opened TreeLists
  import opened Candidates
  import opened Residuals
  import opened PointBounds
  import opened JewelPruners
  import opened ClientVectors
  import opened SplitPruning
  import opened SplitStages

  class SkillSplitPruner {
    const data: Data
    const query: Query
    const effectId: nat
    const source: ListIterator<TreeRoot>
    const pool: NodePool
    const clients: ClientVector
    const splitters: seq<SkillSplitter>
    const requiredPoints: int
    const inversePoints: Signature
    const perEffectInverses: seq<Signature>
    var buffer: seq<TreeRoot>

    /** What never changes. */
    ghost predicate Configured() {
      && Ready(data, query) && FOUNDATION_NUM <= effectId < |query.effects| <= EFFECTS
      && NoOverflow(data, query) && SplitKeysFit(data, query)
      && clients.data == data && clients.query == query
      && |splitters| == |query.effects| == |perEffectInverses|
      && (forall i :: 0 <= i < |splitters| ==>
            splitters[i].pool == pool && splitters[i].effectId == i && ScoresSkill(splitters[i].scoring, data, query.effects[i].id))
      && requiredPoints == query.effects[effectId].points
      && inversePoints == InverseKey(query.effects, effectId + 1)
      && (forall i :: effectId <= i < |query.effects| ==> perEffectInverses[i] == InverseWith(query.effects, effectId, i))
    }

    ghost predicate Valid()
      reads this, source, pool, clients, clients.Caches()
    {
      && Configured()
      && pool.State().Valid() && source.Valid() && clients.Valid()
      && AllComplete(pool.State(), data, query, source.Remaining(), effectId)
      && AllComplete(pool.State(), data, query, buffer, effectId + 1)
    }

    constructor (source: ListIterator<TreeRoot>, pool: NodePool, data: Data, query: Query, effectId: nat,
                 clients: ClientVector, splitters: seq<SkillSplitter>)
      requires Ready(data, query) && FOUNDATION_NUM <= effectId < |query.effects| <= EFFECTS
      requires NoOverflow(data, query) && SplitKeysFit(data, query)
      requires clients.Valid() && clients.data == data && clients.query == query && |splitters| == |query.effects|
      requires forall i :: 0 <= i < |splitters| ==>
        splitters[i].pool == pool && splitters[i].effectId == i && ScoresSkill(splitters[i].scoring, data, query.effects[i].id)
      requires pool.State().Valid() && source.Valid()
      requires AllComplete(pool.State(), data, query, source.Remaining(), effectId)
      ensures Valid() && buffer == [] && this.source == source && this.pool == pool && this.clients == clients
      ensures this.data == data && this.query == query && this.effectId == effectId
    {
      this.data, this.query, this.effectId := data, query, effectId;
      this.source, this.pool, this.clients, this.splitters := source, pool, clients, splitters;
      requiredPoints := query.effects[effectId].points;
      inversePoints := InverseKey(query.effects, effectId + 1);
      perEffectInverses := seq(|query.effects|, i requires 0 <= i < |query.effects| =>
        if effectId <= i then InverseWith(query.effects, effectId, i) else ZERO);
      buffer := [];
    }

    /** Keys of `existing` jewels and more jewels for effect `i` that pass together with `key0`. */
    method CollectFor(i: nat, key: Signature, existing: seq<Signature>, multiplier: int, key0: Signature, inverse: Signature)
      returns (found: seq<Signature>)
      requires clients.Valid() && clients.data == data && clients.query == query && i < |query.effects| <= EFFECTS
      requires SlotsInBounds(key) && multiplier == Multiplier(key)
      requires forall n :: 0 <= n < |existing| ==> HasPlan(data, query, key, existing[n])
      modifies clients.Caches()
      ensures clients.Valid()
      ensures forall jewelKey :: jewelKey in found <==> Extended(data, query, key, existing, i, key0, inverse, jewelKey)
    {
      hide ClientVector.Valid, SlotsInBounds, Satisfy, Or, EffectClasses, HasPlan, ExtendsSome, ExtendsBy;
      found := [];
      ExtendsNone(EffectClasses(data, query, i), key);
      assert existing[..0] == [];
      ClientCount(clients);
      for n := 0 to |existing|
        invariant clients.Valid()
        invariant forall jewelKey :: jewelKey in found <==> Extended(data, query, key, existing[..n], i, key0, inverse, jewelKey)
      {
        ExtendsOneMore(EffectClasses(data, query, i), key, existing, n);
        var answer := clients.QueryLeft(i, key, existing[n], multiplier);
        var selected := SelectFor(EffectClasses(data, query, i), key, existing[n], answer, key0, inverse);
        found := found + selected;
      }
      assert existing[..|existing|] == existing;
    }

    static method SelectFor(ghost classes: Classes, ghost key: Signature, existing: Signature, answer: set<Signature>,
                            key0: Signature, inverse: Signature) returns (selected: seq<Signature>)
      requires answer == FillLeft(classes, key, existing)
      ensures forall jewelKey :: jewelKey in selected <==>
        ExtendsBy(classes, key, existing, jewelKey) && Satisfy(Or(key0, jewelKey), inverse)
    {
      hide Satisfy, Or, FillLeft, Add;
      selected := [];
      var rest := answer;
      while rest != {}
        invariant rest <= answer
        invariant forall jewelKey :: jewelKey in selected <==>
          Satisfy(Or(key0, jewelKey), inverse) && exists more :: more in answer - rest && jewelKey == Add(existing, more)
      {
        var more :| more in rest;
        var key1 := Add(existing, more);
        if Satisfy(Or(key0, key1), inverse) {
          selected := selected + [key1];
        }
        rest := rest - {more};
      }
    }

    /** The buffered trees that come after the current one. */
    ghost function Behind(): seq<TreeRoot>
      reads this
    {
      if buffer == [] then [] else buffer[..|buffer| - 1]
    }

    /** A tree with both armor sets and the jewel key is still to come: it is buffered, or the stage will make it of one of the source. */
    ghost predicate ToCome(t: seq<int>, u: seq<int>, jewelKey: Signature)
      requires Valid()
      reads this, source, pool, clients, clients.Caches()
    {
      || Carries(pool.State(), Behind(), t, u, jewelKey)
      || SplitsSome(pool.State(), data, query, source.Remaining(), effectId, t, u, jewelKey)
    }

    /** How often it is still to come. */
    ghost function CountToCome(t: seq<int>): nat
      requires Valid()
      reads this, source, pool, clients, clients.Caches()
    {
      CountRoots(pool.State(), Behind(), t) + SplitCount(pool.State(), data, query, source.Remaining(), effectId, t)
    }

    /** The next tree is then the last of the buffer. Every buffered tree has a jewel key, and all its jewel keys meet the
        effects up to this one. Over a whole run exactly what the stage keeps comes, each armor set as often as before. */
    method Next() returns (more: bool)
      requires Valid()
      modifies this, source, pool, clients.Caches()
      ensures Valid() && pool.State().Extends(old(pool.State()))
      ensures more ==> buffer != [] && pool.State().IsOr(Get().id)
      ensures !more ==> buffer == [] && source.Remaining() == []
      ensures more ==>
        || |source.Remaining()| < |old(source.Remaining())|
        || (source.Remaining() == old(source.Remaining()) && |buffer| < |old(buffer)|)
      ensures forall t, u, jewelKey ::
        old(ToCome(t, u, jewelKey)) <==> more && (Carries(pool.State(), [Get()], t, u, jewelKey) || ToCome(t, u, jewelKey))
      ensures forall t ::
        old(CountToCome(t)) == if more then CountRoots(pool.State(), [Get()], t) + CountToCome(t) else 0
    {
      hide AllComplete, Pool.Valid, ClientVector.Valid, Ready, NoOverflow, SplitKeysFit, Carries, SplitsSome, CountRoots, SplitCount;
      if buffer != [] {
        BufferRest(pool.State(), data, query, buffer, effectId + 1);
        buffer := buffer[..|buffer| - 1];
      }
      if buffer != [] {
        TopOf(pool.State(), data, query, buffer, effectId + 1);
        return true;
      }
      NoTrees(pool.State());
      var some, split := TryNext();
      while some && !split
        invariant Valid() && pool.State().Extends(old(pool.State()))
        invariant split ==> buffer != []
        invariant !split ==> buffer == []
        invariant some ==> |source.Remaining()| < |old(source.Remaining())|
        invariant !some ==> source.Remaining() == [] && !split
        invariant forall t, u, jewelKey :: old(ToCome(t, u, jewelKey)) <==> StillToCome(t, u, jewelKey)
        invariant forall t :: old(CountToCome(t)) == CountStillToCome(t)
        decreases some && !split, |source.Remaining()|
      {
        some, split := TryNext();
      }
      more := split;
      EndOfNext(split);
    }

    /** With the whole buffer, not only what comes after the current tree. */
    ghost predicate StillToCome(t: seq<int>, u: seq<int>, jewelKey: Signature)
      requires Valid()
      reads this, source, pool, clients, clients.Caches()
    {
      || Carries(pool.State(), buffer, t, u, jewelKey)
      || SplitsSome(pool.State(), data, query, source.Remaining(), effectId, t, u, jewelKey)
    }

    ghost function CountStillToCome(t: seq<int>): nat
      requires Valid()
      reads this, source, pool, clients, clients.Caches()
    {
      CountRoots(pool.State(), buffer, t) + SplitCount(pool.State(), data, query, source.Remaining(), effectId, t)
    }

    /** The last of the buffer, and what comes after it. */
    lemma EndOfNext(split: bool)
      requires Valid() && split == (buffer != []) && (!split ==> source.Remaining() == [])
      ensures split ==> pool.State().IsOr(Get().id)
      ensures forall t, u, jewelKey ::
        StillToCome(t, u, jewelKey) <==> split && (Carries(pool.State(), [Get()], t, u, jewelKey) || ToCome(t, u, jewelKey))
      ensures forall t ::
        CountStillToCome(t) == if split then CountRoots(pool.State(), [Get()], t) + CountToCome(t) else 0
    {
      hide AllComplete, Pool.Valid, ClientVector.Valid, Ready, NoOverflow, SplitKeysFit, Carries, SplitsSome, CountRoots, SplitCount;
      if split {
        TopOf(pool.State(), data, query, buffer, effectId + 1);
      } else {
        NoTrees(pool.State());
        NoSplits(pool.State(), data, query, effectId);
      }
    }

    function Get(): TreeRoot
      requires buffer != []
      reads this
    {
      buffer[|buffer| - 1]
    }

    /** Takes one tree from the source, if there is one, and splits it if some candidate passes. */
    method TryNext() returns (some: bool, split: bool)
      requires Valid() && buffer == []
      modifies this, source, pool, clients.Caches()
      ensures Valid() && pool.State().Extends(old(pool.State()))
      ensures some == (old(source.Remaining()) != [])
      ensures some ==> source.Remaining() == old(source.Remaining())[1..]
      ensures !some ==> source.Remaining() == [] && !split
      ensures split <==> buffer != []
      ensures some ==> IsSplitOf(old(pool.State()), pool.State(), data, query, old(source.Remaining())[0], effectId, buffer)
      ensures forall t, u, jewelKey :: old(StillToCome(t, u, jewelKey)) <==> StillToCome(t, u, jewelKey)
      ensures forall t :: old(CountStillToCome(t)) == CountStillToCome(t)
    {
      hide AllComplete, Pool.Valid, ClientVector.Valid, RootKept, NoOverflow, SplitKeysFit, Ready, Carries, SplitsSome, CountRoots,
        SplitCount, IsSplitOf;
      ghost var older, roots := pool.State(), source.Remaining();
      NoTrees(older);
      split := false;
      some := source.Next();
      if some {
        SourceRest(older, data, query, roots, effectId);
        split := TrySplit(source.Get());
        AllCompleteStable(older, pool.State(), data, query, roots[1..], effectId);
        OneTreeSplit(older, pool.State(), data, query, roots, effectId, buffer);
      } else {
        NoneComplete(older, data, query, effectId);
      }
    }

    /** Fills the buffer with what the stage makes of one tree. */
    method TrySplit(root: TreeRoot) returns (split: bool)
      requires Configured() && pool.State().Valid() && clients.Valid() && Splittable(root) && buffer == []
      modifies this`buffer, pool, clients.Caches()
      ensures clients.Valid() && pool.State().Valid() && pool.State().Extends(old(pool.State()))
      ensures AllComplete(pool.State(), data, query, buffer, effectId + 1) && split == (buffer != [])
      ensures IsSplitOf(old(pool.State()), pool.State(), data, query, root, effectId, buffer)
    {
      hide AllComplete, Pool.Valid, ClientVector.Valid, RootKept, NoOverflow, SplitKeysFit, Ready, CandidatesOf, IsLeast, Possible,
        IsSplitOf;
      split := false;
      ghost var older := pool.State();
      NoneComplete(older, data, query, effectId + 1);
      var pass := PreFilter(root);
      if pass {
        var candidates, subMin, max := Collect(root);
        if candidates != [] {
          SplitRoot(root, candidates, subMin, max);
          split := true;
          return;
        }
      }
      NothingKept(older, pool.State(), data, query, root, effectId);
    }

    ghost predicate Splittable(root: TreeRoot)
      requires Configured() && pool.State().Valid()
      reads pool
    {
      && RootKept(pool.State(), data, query, root, effectId, effectId) && root.jewelKeys != []
      && pool.State().IsOr(root.id)
    }

    /** Whether every later effect could still be met. */
    method PreFilter(root: TreeRoot) returns (pass: bool)
      requires Configured() && pool.State().Valid() && clients.Valid() && Splittable(root)
      modifies clients.Caches()
      ensures clients.Valid()
      ensures pass <==> forall i :: effectId < i < |query.effects| ==>
        Possible(pool.State(), data, query, root, effectId, i)
    {
      hide RootKept, Possible, Pool.Valid, ClientVector.Valid;
      for i := effectId + 1 to |query.effects|
        invariant clients.Valid()
        invariant forall j :: effectId < j < i ==>
          Possible(pool.State(), data, query, root, effectId, j)
      {
        var possible := TryEffect(root, i);
        if !possible {
          return false;
        }
      }
      pass := true;
    }

    method TryEffect(root: TreeRoot, i: nat) returns (pass: bool)
      requires Configured() && pool.State().Valid() && clients.Valid() && Splittable(root)
      requires effectId < i < |query.effects|
      modifies clients.Caches()
      ensures clients.Valid()
      ensures pass <==> Possible(pool.State(), data, query, root, effectId, i)
    {
      hide RootKept, Possible, Pool.Valid, ClientVector.Valid, InverseWith, AddPoints, Extended, IsMaximum, NoOverflow, SplitKeysFit,
        Ready, AllBetween, SlotsInBounds, HasPlan, ScoresSkill;
      KeptSplittable(pool.State(), data, query, splitters[i].scoring, root, effectId, i);
      var key := pool.ors[root.id].key;
      var subMax := splitters[i].Max(root.id, root.torsoMultiplier, HIGHEST_KEY);
      MostPoints(pool.State(), data, query, splitters[i].scoring, root, effectId, i, subMax);
      var key0 := AddPoints(key, i, subMax);
      var found := CollectFor(i, key, root.jewelKeys, root.torsoMultiplier, key0, perEffectInverses[i]);
      PossibleIff(pool.State(), data, query, root, effectId, i, subMax, found);
      pass := found != [];
    }

    /** The jewel keys that pass when the tree gets its most points in the effect, and the fewest points they leave to get. */
    method Collect(root: TreeRoot) returns (candidates: seq<Signature>, subMin: int, ghost max: int)
      requires Configured() && pool.State().Valid() && clients.Valid() && Splittable(root)
      modifies clients.Caches()
      ensures clients.Valid()
      ensures CandidatesOf(pool.State(), data, query, root, effectId, max, candidates)
      ensures candidates != [] ==> IsLeast(query, effectId, candidates, subMin)
    {
      hide RootKept, Pool.Valid, ClientVector.Valid, InverseWith, AddPoints, Extended, IsMaximum, NoOverflow, SplitKeysFit,
        Data.Valid, Query.Valid, AllBetween, SlotsInBounds, HasPlan, ScoresSkill;
      KeptSplittable(pool.State(), data, query, splitters[effectId].scoring, root, effectId, effectId);
      var key := pool.ors[root.id].key;
      var subMax := splitters[effectId].Max(root.id, root.torsoMultiplier, HIGHEST_KEY);
      MostPoints(pool.State(), data, query, splitters[effectId].scoring, root, effectId, effectId, subMax);
      max := subMax;
      var key0 := AddPoints(key, effectId, subMax);
      candidates := CollectFor(effectId, key, root.jewelKeys, root.torsoMultiplier, key0, perEffectInverses[effectId]);
      AreCandidates(pool.State(), data, query, root, effectId, subMax, candidates);
      subMin := NO_BOUND;
      for n := 0 to |candidates|
        invariant clients.Valid()
        invariant forall i :: 0 <= i < n ==> subMin <= query.effects[effectId].points - GetPoints(candidates[i], effectId)
        invariant n > 0 ==> exists i :: 0 <= i < n && subMin == query.effects[effectId].points - GetPoints(candidates[i], effectId)
        invariant n == 0 ==> subMin == NO_BOUND
      {
        DiffBelow(query, effectId, candidates[n]);
        var diff := requiredPoints - GetPoints(candidates[n], effectId);
        if diff < subMin {
          subMin := diff;
        }
      }
    }

    /** Fills the buffer with the trees of the split, each with the candidates that pass. */
    method SplitRoot(root: TreeRoot, candidates: seq<Signature>, subMin: int, ghost max: int)
      requires Configured() && pool.State().Valid() && Splittable(root)
      requires CandidatesOf(pool.State(), data, query, root, effectId, max, candidates)
      requires candidates != [] && IsLeast(query, effectId, candidates, subMin)
      requires forall i :: effectId < i < |query.effects| ==> Possible(pool.State(), data, query, root, effectId, i)
      modifies this`buffer, pool
      ensures pool.State().Valid() && pool.State().Extends(old(pool.State()))
      ensures AllComplete(pool.State(), data, query, buffer, effectId + 1) && buffer != []
      ensures IsSplitOf(old(pool.State()), pool.State(), data, query, root, effectId, buffer)
    {
      hide RootKept, Pool.Valid, InverseKey, CandidatesOf, NoOverflow, SplitKeysFit, Ready, AllBetween, SlotsInBounds,
        ScoresSkill, HasDepth, CountForest, CountOr, IsLeast, Satisfy, Or, HasPlan, Possible, IsSplitOf;
      ghost var older, scoring := pool.State(), splitters[effectId].scoring;
      KeptSplittable(older, data, query, scoring, root, effectId, effectId);
      var newOrs := splitters[effectId].Split(root.id, subMin, root.torsoMultiplier, PART_NUM);
      ghost var newer := pool.State();
      buffer := [];
      for n := 0 to |newOrs|
        invariant pool.State() == newer && |buffer| == n
        invariant forall i :: 0 <= i < n ==> IsNewRoot(newer, inversePoints, candidates, newOrs[i], buffer[i])
      {
        assert Refined(older, newer, scoring, root.id, newOrs[n], root.torsoMultiplier, effectId, PART_NUM, subMin);
        var node := pool.ors[newOrs[n]];
        var jewelKeys := SelectPassing(node.key, candidates);
        buffer := buffer + [TreeRoot(newOrs[n], jewelKeys, Multiplier(node.key))];
      }
      SplitDone(Split(older, newer, data, query, scoring, root, effectId, max, candidates, subMin, newOrs), buffer);
    }

    method SelectPassing(key: Signature, candidates: seq<Signature>) returns (jewelKeys: seq<Signature>)
      ensures forall jewelKey :: jewelKey in jewelKeys <==> jewelKey in candidates && Satisfy(Or(jewelKey, key), inversePoints)
    {
      hide Satisfy, Or;
      jewelKeys := [];
      for n := 0 to |candidates|
        invariant forall jewelKey :: jewelKey in jewelKeys <==>
          jewelKey in candidates[..n] && Satisfy(Or(jewelKey, key), inversePoints)
      {
        assert candidates[..n + 1] == candidates[..n] + [candidates[n]];
        if Satisfy(Or(candidates[n], key), inversePoints) {
          jewelKeys := jewelKeys + [candidates[n]];
        }
      }
      assert candidates[..|candidates|] == candidates;
    }
  }

  lemma ClientCount(clients: ClientVector)
    requires clients.Valid()
    ensures |clients.clients| == |clients.query.effects| && Ready(clients.data, clients.query)
  {
  }

  /** What a method may ask about a kept tree. */
  lemma KeptSplittable(pool: Pool, data: Data, query: Query, scoring: Scoring, root: TreeRoot, e: nat, i: nat)
    requires pool.Valid() && Ready(data, query) && e < |query.effects| <= EFFECTS && FOUNDATION_NUM <= i < |query.effects|
    requires SplitKeysFit(data, query) && RootKept(pool, data, query, root, e, e)
    requires ScoresSkill(scoring, data, query.effects[i].id)
    ensures pool.IsOr(root.id) && pool.ors[root.id].tag == ANDS && HasDepth(pool, root.id, PART_NUM)
    ensures SlotsInBounds(pool.ors[root.id].key) && root.torsoMultiplier == Multiplier(pool.ors[root.id].key)
    ensures AllBetween(scoring, pool, root.id, root.torsoMultiplier, LOWEST_KEY, HIGHEST_KEY)
    ensures AllBetween(scoring, pool, root.id, root.torsoMultiplier, FLOOR, HIGHEST_KEY)
    ensures forall n :: 0 <= n < |root.jewelKeys| ==> HasPlan(data, query, pool.ors[root.id].key, root.jewelKeys[n])
  {
    hide SetKeyed, HasDepth, AllBetween, HasPlan, Satisfy;
    TreeSlots(pool, data, query, root.id, e);
    SplitterBounds(pool, data, query, scoring, root.id, e, i);
  }

  /** What the splitter finds to be the maximum is the most points of the tree's sets. */
  lemma MostPoints(pool: Pool, data: Data, query: Query, scoring: Scoring, root: TreeRoot, e: nat, i: nat, max: int)
    requires pool.Valid() && Ready(data, query) && e <= i < |query.effects| <= EFFECTS
    requires RootKept(pool, data, query, root, e, e) && pool.IsOr(root.id)
    requires ScoresSkill(scoring, data, query.effects[i].id) && IsMaximum(pool, scoring, root.id, root.torsoMultiplier, max)
    ensures IsMost(pool, data, query, root.id, i, max)
  {
    hide TreeKeyed, IsMaximum, IsMost, ScoresSkill, Ready, HasPlan, Satisfy;
    MaximumIsMost(pool, data, query, scoring, root, e, i, max);
  }

  lemma PossibleIff(pool: Pool, data: Data, query: Query, root: TreeRoot, e: nat, i: nat, max: int, found: seq<Signature>)
    requires pool.Valid() && pool.IsOr(root.id) && e <= i < |query.effects| <= EFFECTS
    requires IsMost(pool, data, query, root.id, i, max)
    requires forall jewelKey :: jewelKey in found <==>
      Extended(data, query, pool.ors[root.id].key, root.jewelKeys, i, AddPoints(pool.ors[root.id].key, i, max),
               InverseWith(query.effects, e, i), jewelKey)
    ensures Possible(pool, data, query, root, e, i) <==> found != []
  {
    hide Extended, AddPoints, InverseWith, IsMost;
    if found != [] {
      assert found[0] in found;
    }
    if Possible(pool, data, query, root, e, i) {
      var most, jewelKey :| IsMost(pool, data, query, root.id, i, most) &&
        Extended(data, query, pool.ors[root.id].key, root.jewelKeys, i, AddPoints(pool.ors[root.id].key, i, most),
                 InverseWith(query.effects, e, i), jewelKey);
      MostUnique(pool, data, query, root.id, i, max, most);
      assert jewelKey in found;
    }
  }

  lemma NoTrees(pool: Pool)
    requires pool.Valid()
    ensures forall t, u, jewelKey :: !Carries(pool, [], t, u, jewelKey)
    ensures forall t :: CountRoots(pool, [], t) == 0
  {
    forall t
      ensures CountRoots(pool, [], t) == 0
    {
      CountNoRoots(pool, t);
    }
  }

  lemma NoSplits(pool: Pool, data: Data, query: Query, e: nat)
    requires pool.Valid() && e < |query.effects| <= EFFECTS
    ensures forall t, u, jewelKey :: !SplitsSome(pool, data, query, [], e, t, u, jewelKey)
    ensures forall t :: SplitCount(pool, data, query, [], e, t) == 0
  {
  }

  /** The buffer is its last tree and the trees behind that. */
  lemma TopOf(pool: Pool, data: Data, query: Query, buffer: seq<TreeRoot>, count: nat)
    requires pool.Valid() && count <= |query.effects| <= EFFECTS && AllComplete(pool, data, query, buffer, count) && buffer != []
    ensures var top, behind := buffer[|buffer| - 1], buffer[..|buffer| - 1];
      && pool.IsOr(top.id)
      && (forall t, u, jewelKey ::
            Carries(pool, buffer, t, u, jewelKey) <==> Carries(pool, [top], t, u, jewelKey) || Carries(pool, behind, t, u, jewelKey))
      && (forall t :: CountRoots(pool, buffer, t) == CountRoots(pool, [top], t) + CountRoots(pool, behind, t))
  {
    hide AllComplete, Carries, CountRoots, HasBoth, Pool.Valid;
    CompleteAreOrs(pool, data, query, buffer, count);
    var top, behind := buffer[|buffer| - 1], buffer[..|buffer| - 1];
    assert buffer == behind + [top] && [] + [top] == [top];
    NoTrees(pool);
    forall t, u, jewelKey
      ensures Carries(pool, buffer, t, u, jewelKey) <==> Carries(pool, [top], t, u, jewelKey) || Carries(pool, behind, t, u, jewelKey)
    {
      CarriesAppend(pool, behind, top, t, u, jewelKey);
      CarriesAppend(pool, [], top, t, u, jewelKey);
    }
    forall t
      ensures CountRoots(pool, buffer, t) == CountRoots(pool, [top], t) + CountRoots(pool, behind, t)
    {
      CountRootsAppend(pool, behind, top, t);
      CountRootsAppend(pool, [], top, t);
    }
  }

  /** One tree of the source has become the buffer. */
  lemma OneTreeSplit(older: Pool, pool: Pool, data: Data, query: Query, roots: seq<TreeRoot>, e: nat, buffer: seq<TreeRoot>)
    requires older.Valid() && pool.Valid() && pool.Extends(older) && e < |query.effects| <= EFFECTS
    requires AllComplete(older, data, query, roots, e) && roots != []
    requires IsSplitOf(older, pool, data, query, roots[0], e, buffer)
    ensures forall t, u, jewelKey ::
      SplitsSome(older, data, query, roots, e, t, u, jewelKey) <==>
      Carries(pool, buffer, t, u, jewelKey) || SplitsSome(pool, data, query, roots[1..], e, t, u, jewelKey)
    ensures forall t ::
      SplitCount(older, data, query, roots, e, t) ==
      CountRoots(pool, buffer, t) + SplitCount(pool, data, query, roots[1..], e, t)
  {
    hide AllComplete, Carries, CountRoots, SplitsTo, OneSplit, Pool.Valid;
    CompleteAreOrs(older, data, query, roots, e);
    assert forall n :: 0 < n < |roots| ==> roots[1..][n - 1] == roots[n];
    forall t, u, jewelKey
      ensures SplitsSome(older, data, query, roots, e, t, u, jewelKey) <==>
        Carries(pool, buffer, t, u, jewelKey) || SplitsSome(pool, data, query, roots[1..], e, t, u, jewelKey)
    {
      SplitsSomeStable(older, pool, data, query, roots[1..], e, t, u, jewelKey);
    }
    forall t
      ensures SplitCount(older, data, query, roots, e, t) ==
        CountRoots(pool, buffer, t) + SplitCount(pool, data, query, roots[1..], e, t)
    {
      SplitCountStable(older, pool, data, query, roots[1..], e, t);
    }
  }
}
