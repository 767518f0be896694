/** Turning unpacked armor sets into finished ones: the jewels are found and placed. */
module Finalizers {
  import opened Packing
  import opened Signatures
  import opened Datasets
  import opened Keys
  import opened SetTotals
  import opened Stats
  import opened JewelSolvers
  import opened JewelAssigners
  import opened Placements
  import opened Iterators
  import opened Unpackers
  import opened Candidates
  import opened PointBounds
  import opened RawSets
  import opened FinalSteps

  // ---------- Loading ----------

  /** The parts among the first `n` that the assigner fills: all but a body piece that counts several times. */
  function Added(ids: seq<int>, n: nat, multiplier: int): seq<int>
    requires n <= |ids| == PART_NUM
  {
    if n == PART_NUM && multiplier > 1 then ids[..BODY] else ids[..n]
  }

  /** The capacities after `n` parts have been added. */
  ghost predicate PartsLoaded(data: Data, ids: seq<int>, n: nat, multiplier: int, parts: BySize, capacity: map<int, int>)
    requires |ids| == PART_NUM && AreArmors(data, ids) && n <= PART_NUM
  {
    && (forall p :: p in capacity <==> 0 <= p < n && !(p == BODY && multiplier > 1))
    && (forall p :: p in capacity ==> capacity[p] == data.armors[ids[p]].slots)
    && (forall c :: 1 <= c <= 3 ==> |parts[c]| == PartsWith(data, Added(ids, n, multiplier), c))
  }

  lemma NoPartsLoaded(data: Data, ids: seq<int>, multiplier: int)
    requires |ids| == PART_NUM && AreArmors(data, ids)
    ensures PartsLoaded(data, ids, 0, multiplier, [[], [], [], []], map[])
  {
  }

  lemma PartLoaded(data: Data, ids: seq<int>, n: nat, multiplier: int, parts: BySize, capacity: map<int, int>)
    requires |ids| == PART_NUM && AreArmors(data, ids) && n < PART_NUM && 0 <= data.armors[ids[n]].slots <= 3
    requires PartsLoaded(data, ids, n, multiplier, parts, capacity)
    ensures var c := data.armors[ids[n]].slots;
      if n == BODY && multiplier > 1 then PartsLoaded(data, ids, n + 1, multiplier, parts, capacity)
      else PartsLoaded(data, ids, n + 1, multiplier, parts[c := parts[c] + [n]], capacity[n := c])
  {
    if n == BODY && multiplier > 1 {
      assert Added(ids, n + 1, multiplier) == Added(ids, n, multiplier);
    } else {
      var c := data.armors[ids[n]].slots;
      assert Added(ids, n + 1, multiplier) == Added(ids, n, multiplier) + [ids[n]];
      var more: BySize := parts[c := parts[c] + [n]];
      forall size | 1 <= size <= 3
        ensures |more[size]| == PartsWith(data, Added(ids, n + 1, multiplier), size)
      {
        PartsWithAppend(data, Added(ids, n, multiplier), ids[n], size);
      }
    }
  }

  /** When all parts are in, the assigner has the free slots of the set. */
  lemma LoadedSlots(data: Data, t: seq<int>, ids: seq<int>, parts: BySize, capacity: map<int, int>)
    requires data.Valid() && IsWhole(data, t) && IsWholeArmors(data, t) && ids == Reversed(t) && AreArmors(data, ids)
    requires PartsLoaded(data, ids, PART_NUM, Multiplied(data, t), parts, capacity)
    ensures Slots(|parts[1]|, |parts[2]|, |parts[3]|) == FreeSlots(data, t)
  {
    hide Multiplied, PartsWith, Data.Valid;
    var m := Multiplied(data, t);
    assert ids[..PART_NUM] == ids;
    assert ids[..BODY] == Reversed(t[1..]);
    forall size | 1 <= size <= 3
      ensures |parts[size]| == PartsWith(data, if m > 1 then t[1..] else t, size)
    {
      SameArmors(data, t, size);
      SameArmors(data, t[1..], size);
    }
  }

  /** Adding `q` copies of a jewel to a list. */
  lemma CopiesAdded(ids: seq<int>, id: int, q: nat)
    ensures multiset(ids + seq(q, _ => id)) == multiset(ids)[id := multiset(ids)[id] + q]
  {
    if q > 0 {
      CopiesAdded(ids, id, q - 1);
      assert ids + seq(q, _ => id) == ids + seq(q - 1, _ => id) + [id];
    }
  }

  /** Every copy of the jewels in `keys`, and no others. */
  ghost predicate HoldsSome(ids: multiset<int>, counts: map<int, nat>, keys: set<int>) {
    forall id :: ids[id] == if id in keys && id in counts then counts[id] else 0
  }

  lemma HeldAll(ids: seq<int>, counts: map<int, nat>, others: seq<int>)
    requires HoldsSome(multiset(ids), counts, counts.Keys) && Counts(counts, others)
    ensures multiset(ids) == multiset(others)
  {
    forall id
      ensures multiset(ids)[id] == multiset(others)[id]
    {
      if id !in counts {
        assert id !in others;
      }
    }
  }

  class Finalizer {
    const data: Data
    const query: Query
    const source: ListIterator<RawArmorSet>
    const solver: JewelSolver
    const maxPerSet: int
    var current: ArmorSet
    var multiplier: int
    var jewelKeys: seq<Signature>
    var currentConsumed: int
    /** The armors of the current set, body first, and all its keys. */
    ghost var armors: seq<int>
    ghost var keys: seq<Signature>

    ghost predicate Configured() {
      && Ready(data, query) && |query.effects| <= EFFECTS && NoOverflow(data, query)
      && TableOf(solver.table, data, query)
    }

    ghost predicate Valid()
      reads this, source
    {
      && Configured() && source.Valid()
      && AllReady(data, query, source.Remaining())
      && (jewelKeys != [] ==> IsCurrent())
    }

    /** The armors are in place, and each of the jewel keys completes them. */
    ghost predicate IsCurrent()
      requires |query.effects| <= EFFECTS
      reads this`current, this`multiplier, this`jewelKeys, this`armors, this`keys
    {
      && IsAllowed(data, query, armors) && Defense(data, armors) >= query.defense
      && |current.ids| == PART_NUM && current.ids == Reversed(armors) && multiplier == Multiplied(data, armors)
      && |jewelKeys| <= |keys| && jewelKeys == keys[..|jewelKeys|]
      && forall n :: 0 <= n < |jewelKeys| ==> Completes(data, query, armors, jewelKeys[n])
    }

    constructor (source: ListIterator<RawArmorSet>, query: Query, data: Data, maxPerSet: int)
      requires Ready(data, query) && |query.effects| <= EFFECTS && NoOverflow(data, query)
      requires source.Valid() && AllReady(data, query, source.Remaining())
      ensures Valid() && jewelKeys == [] && this.source == source && this.data == data && this.query == query
      ensures this.maxPerSet == maxPerSet
    {
      this.data, this.query, this.source, this.maxPerSet := data, query, source, maxPerSet;
      current := ArmorSet([], []);
      multiplier, jewelKeys, currentConsumed, armors, keys := 1, [], 0, [], [];
      solver := new JewelSolver(data, query.effects, query.jewelFilter);
      new;
      assert seq(|query.effects|, e requires 0 <= e < |query.effects| => query.effects[e].id) == SkillIds(query.effects);
    }

    /** The next call starts with another armor set. */
    predicate AtEnd()
      reads this
    {
      jewelKeys == [] || currentConsumed >= maxPerSet
    }

    /** The next finished set. With one set per armor set, the armor sets before it are skipped only when all their keys are
        rejected for a negative skill. */
    method Next() returns (more: bool, ghost skipped: nat)
      requires Valid()
      modifies this, source
      ensures Valid() && (more ==> IsResult(data, query, current))
      ensures !more ==> source.Remaining() == []
      ensures more ==> Shrunk(|old(source.Remaining())|, |old(jewelKeys)|)
      ensures maxPerSet == 1 && old(AtEnd()) ==>
        && skipped <= |old(source.Remaining())| && (more <==> skipped < |old(source.Remaining())|)
        && AllRejected(data, query, old(source.Remaining())[..skipped]) && (!query.avoidNegative ==> skipped == 0)
        && (more ==> AtEnd() && current.ids == Reversed(old(source.Remaining())[skipped].ids)
                     && source.Remaining() == old(source.Remaining())[skipped + 1..])
    {
      hide Configured, AllReady, Completes, IsResult, IsCurrent, Reversed, Progress;
      ghost var raws, counting := source.Remaining(), maxPerSet == 1 && AtEnd();
      FewEffects();
      var some, pass;
      some, pass, skipped := TryFirst(counting);
      while some && !pass
        invariant Valid() && |query.effects| <= EFFECTS && (pass ==> some && IsResult(data, query, current))
        invariant !some ==> source.Remaining() == []
        invariant some ==> Shrunk(|old(source.Remaining())|, |old(jewelKeys)|)
        invariant counting ==> Progress(raws, skipped, some, pass)
        decreases some && !pass, |source.Remaining()|, |jewelKeys|
      {
        some, pass, skipped := TryMore(raws, skipped, counting);
      }
      more := some;
      if counting {
        Counted(raws, skipped, more, pass);
        NoneSkipped(data, query, raws, skipped);
      }
    }

    /** Which sets have been skipped, and which is tried. */
    ghost predicate Progress(raws: seq<RawArmorSet>, skipped: nat, some: bool, pass: bool)
      requires |query.effects| <= EFFECTS && source.Valid()
      reads this, source
    {
      && skipped <= |raws| && (some <==> skipped < |raws|) && maxPerSet == 1
      && AllRejected(data, query, raws[..skipped])
      && (some ==> Trying(raws, skipped, pass))
    }

    lemma Counted(raws: seq<RawArmorSet>, skipped: nat, some: bool, pass: bool)
      requires |query.effects| <= EFFECTS && source.Valid() && Progress(raws, skipped, some, pass) && (some ==> pass)
      ensures skipped <= |raws| && (some <==> skipped < |raws|)
      ensures AllRejected(data, query, raws[..skipped])
      ensures some ==>
        AtEnd() && current.ids == Reversed(raws[skipped].ids) && source.Remaining() == raws[skipped + 1..]
    {
      hide RawRejected, Reversed;
    }

    method TryFirst(ghost counting: bool) returns (some: bool, pass: bool, ghost skipped: nat)
      requires Valid() && (counting ==> maxPerSet == 1 && AtEnd())
      modifies this, source
      ensures Valid() && |query.effects| <= EFFECTS && (pass ==> some && IsResult(data, query, current))
      ensures !some ==> source.Remaining() == []
      ensures some ==> Shrunk(|old(source.Remaining())|, |old(jewelKeys)|)
      ensures counting ==> Progress(old(source.Remaining()), skipped, some, pass)
    {
      hide Configured, AllReady, Completes, IsResult, IsCurrent, Reversed, KeyRejected, RejectedFrom, AllRejected, RawRejected;
      FewEffects();
      ghost var raws := source.Remaining();
      skipped := 0;
      NoneRejected(data, query, raws);
      some, pass := TryKey();
      if counting && some {
        FirstRejected(data, query, armors, keys);
        if !pass {
          OneMoreRejected(data, query, armors, keys, |keys|);
        }
      }
    }

    method TryMore(ghost raws: seq<RawArmorSet>, ghost before: nat, ghost counting: bool)
      returns (some: bool, pass: bool, ghost skipped: nat)
      requires Valid() && |query.effects| <= EFFECTS && (counting ==> Progress(raws, before, true, false))
      modifies this, source
      ensures Valid() && (pass ==> some && IsResult(data, query, current))
      ensures !some ==> source.Remaining() == []
      ensures some ==> Shrunk(|old(source.Remaining())|, |old(jewelKeys)|)
      ensures counting ==> Progress(raws, skipped, some, pass)
    {
      hide Configured, AllReady, Completes, IsResult, IsCurrent, Reversed, KeyRejected, RejectedFrom, AllRejected;
      skipped := if |jewelKeys| <= 1 then before + 1 else before;
      if counting && |jewelKeys| <= 1 {
        OneMoreRaw(data, query, raws, before);
      }
      some, pass := TryKey();
      if counting && some {
        FirstRejected(data, query, armors, keys);
        if !pass {
          OneMoreRejected(data, query, armors, keys, |jewelKeys|);
        }
      }
    }

    lemma FewEffects()
      requires Valid()
      ensures |query.effects| <= EFFECTS && AllReady(data, query, source.Remaining())
    {
    }

    /** The set that is tried, with the keys left; the others have been rejected. */
    ghost predicate Trying(raws: seq<RawArmorSet>, n: nat, pass: bool)
      requires |query.effects| <= EFFECTS && source.Valid()
      reads this, source
    {
      && n < |raws| && source.Remaining() == raws[n + 1..]
      && armors == raws[n].ids && keys == raws[n].jewelKeys && current.ids == Reversed(armors)
      && 1 <= |jewelKeys| <= |keys| && currentConsumed == (if pass then 1 else 0)
      && RejectedFrom(data, query, armors, keys, |jewelKeys| - (if pass then 0 else 1))
    }

    /** There is less to do than before. */
    ghost predicate Shrunk(raws: nat, keys: nat)
      requires source.Valid()
      reads this, source
    {
      |source.Remaining()| < raws || (|source.Remaining()| == raws && |jewelKeys| < keys)
    }

    /** One round: the next key of the current armor set, or the first of the next set, is solved and placed. */
    method TryKey() returns (some: bool, pass: bool)
      requires Valid()
      modifies this, source
      ensures Valid() && (pass ==> some && IsResult(data, query, current))
      ensures !some ==> source.Remaining() == []
      ensures some ==> Shrunk(|old(source.Remaining())|, |old(jewelKeys)|) && current.ids == Reversed(armors)
      ensures some ==> 1 <= |jewelKeys| <= |keys| && jewelKeys == keys[..|jewelKeys|]
      ensures some && !pass ==> KeyRejected(data, query, armors, keys[|jewelKeys| - 1])
      ensures old(|jewelKeys| <= 1 || currentConsumed >= maxPerSet) ==>
        && (some <==> old(source.Remaining()) != [])
        && (some ==> source.Remaining() == old(source.Remaining())[1..] && armors == old(source.Remaining())[0].ids)
        && (some ==> keys == jewelKeys == old(source.Remaining())[0].jewelKeys && currentConsumed == (if pass then 1 else 0))
      ensures !old(|jewelKeys| <= 1 || currentConsumed >= maxPerSet) ==>
        && some && source.Remaining() == old(source.Remaining()) && armors == old(armors) && keys == old(keys)
        && |jewelKeys| == |old(jewelKeys)| - 1 && currentConsumed == old(currentConsumed) + (if pass then 1 else 0)
    {
      hide Configured, AllReady, Completes, IsResult, IsCurrent, Reversed, KeyRejected;
      pass := false;
      some := NextKey();
      if some {
        LastKey();
        pass := Finish(jewelKeys[|jewelKeys| - 1]);
        if pass {
          currentConsumed := currentConsumed + 1;
        }
      }
    }

    /** The last key left is one that completes the current set. */
    lemma LastKey()
      requires Configured() && IsCurrent() && jewelKeys != []
      ensures Completes(data, query, armors, jewelKeys[|jewelKeys| - 1]) && current.ids == Reversed(armors)
      ensures |jewelKeys| <= |keys| && jewelKeys == keys[..|jewelKeys|]
    {
      hide Completes, Reversed, IsAllowed, Defense, Multiplied;
    }

    /** The key tried last goes; when none is left, or enough sets were made of the armors, the next armor set becomes current. */
    method NextKey() returns (some: bool)
      requires Valid()
      modifies this, source
      ensures Valid() && Configured() && (some ==> IsCurrent() && jewelKeys != [])
      ensures !some ==> source.Remaining() == []
      ensures some ==> Shrunk(|old(source.Remaining())|, |old(jewelKeys)|)
      ensures old(|jewelKeys| <= 1 || currentConsumed >= maxPerSet) ==>
        && (some <==> old(source.Remaining()) != []) && currentConsumed == 0
        && (some ==> source.Remaining() == old(source.Remaining())[1..] && armors == old(source.Remaining())[0].ids)
        && (some ==> keys == jewelKeys == old(source.Remaining())[0].jewelKeys)
      ensures !old(|jewelKeys| <= 1 || currentConsumed >= maxPerSet) ==>
        && some && source.Remaining() == old(source.Remaining()) && armors == old(armors) && keys == old(keys)
        && |jewelKeys| == |old(jewelKeys)| - 1 && currentConsumed == old(currentConsumed)
    {
      hide Configured, AllReady, Completes, IsResult, IsAllowed, Defense, Multiplied, Reversed;
      if jewelKeys != [] {
        jewelKeys := jewelKeys[..|jewelKeys| - 1];
      }
      some := true;
      if jewelKeys == [] || currentConsumed >= maxPerSet {
        some := NextRaw();
      }
    }

    /** The next armor set becomes current. */
    method NextRaw() returns (some: bool)
      requires Valid()
      modifies this, source
      ensures Valid() && some == (old(source.Remaining()) != []) && currentConsumed == 0
      ensures some ==>
        && IsCurrent() && armors == old(source.Remaining())[0].ids
        && keys == jewelKeys == old(source.Remaining())[0].jewelKeys && jewelKeys != []
        && source.Remaining() == old(source.Remaining())[1..]
      ensures !some ==> source.Remaining() == [] && jewelKeys == []
    {
      hide Data.Valid, Query.Valid, NoOverflow, TableOf, AllReady, IsCurrent, RawReady;
      currentConsumed := 0;
      jewelKeys := [];
      ghost var raws := source.Remaining();
      some := source.Next();
      if some {
        ReadyRaw(data, query, raws);
        LoadRaw(source.Get());
      } else {
        NoneReady(data, query);
      }
    }

    method LoadRaw(raw: RawArmorSet)
      requires data.Valid() && |query.effects| <= EFFECTS && RawReady(data, query, raw)
      modifies this
      ensures IsCurrent() && keys == jewelKeys == raw.jewelKeys && armors == raw.ids && currentConsumed == old(currentConsumed)
    {
      hide TableOf, NoOverflow, Completes, Defense, Multiplied, Query.Valid, Data.Valid, IsWhole;
      current := current.(ids := Reversed(raw.ids));
      armors := raw.ids;
      multiplier := TorsoMultiplier(raw.ids);
      jewelKeys, keys := raw.jewelKeys, raw.jewelKeys;
    }

    /** The multiplier is computed from the set's ids, HEAD first. */
    method TorsoMultiplier(ghost t: seq<int>) returns (m: int)
      requires data.Valid() && IsWhole(data, t) && current.ids == Reversed(t)
      ensures m == Multiplied(data, t)
    {
      SetArmors(data, t);
      SameArmors(data, t, 0);
      m := GetMultiplier(data, ArmorSet(current.ids, [[], [], [], [], [], [], []]));
    }

    /** Solves and places the jewels of one key; the CHECK on the solver does not fail. */
    method Finish(jewelKey: Signature) returns (pass: bool)
      requires Configured() && IsCurrent() && Completes(data, query, armors, jewelKey)
      modifies this`current
      ensures Configured() && IsCurrent() && current.ids == old(current.ids)
      ensures pass ==> IsResult(data, query, current)
      ensures !pass ==> KeyRejected(data, query, armors, jewelKey)
    {
      hide TableOf, NoOverflow, Completes, Multiplied, JewelsFit, IsPlacement, NoPartOverfilled, IsResult, SomeNegative, Solves,
        KeySolvable, Counts, Query.Valid, Data.Valid, JewelPoints, SetPoints, Defense, Reversed;
      TableData(solver, data, query);
      CompletingSolvable(solver.table, data, query, armors, jewelKey);
      var solved, plan, ids, bodyIds := solver.Solve(jewelKey, multiplier);
      assert solved;
      SolutionFits(solver.table, data, query, armors, jewelKey, ids, bodyIds);
      var jewels := Place(plan, ids, bodyIds);
      current := ArmorSet(current.ids, jewels);
      FinishedResult(data, query, armors, current, ids, bodyIds);
      pass := true;
      if query.avoidNegative {
        var negative := AnyNegative(data, current);
        pass := !negative;
        assert negative ==> RejectedBy(solver.table, data, query, armors, jewelKey, ids, bodyIds, jewels);
      }
    }

    /** All copies of all jewels. */
    static method TakeAll(counts: map<int, nat>) returns (ids: seq<int>)
      ensures HoldsSome(multiset(ids), counts, counts.Keys)
    {
      ids := [];
      var rest: set<int> := counts.Keys;
      while rest != {}
        invariant rest <= counts.Keys && HoldsSome(multiset(ids), counts, counts.Keys - rest)
      {
        var id := Pick(rest);
        CopiesAdded(ids, id, counts[id]);
        ids := ids + seq(counts[id], _ => id);
        rest := rest - {id};
      }
      assert counts.Keys - {} == counts.Keys;
    }

    method LoadParts(assigner: JewelAssigner, ids: seq<int>, multiplier: int)
      requires assigner.Valid() && assigner.data == data && assigner.capacity == map[] && assigner.slots == 3
      requires assigner.slotsPart == [[], [], [], []]
      requires |ids| == PART_NUM && AreArmors(data, ids)
      modifies assigner
      ensures assigner.Valid() && assigner.slotsJewel == old(assigner.slotsJewel) && assigner.slots == 3
      ensures PartsLoaded(data, ids, PART_NUM, multiplier, assigner.slotsPart, assigner.capacity)
    {
      hide PartsWith, PartsLoaded, Listed, Loaded;
      NoPartsLoaded(data, ids, multiplier);
      for i := 0 to PART_NUM
        invariant assigner.Valid() && assigner.slotsJewel == old(assigner.slotsJewel) && assigner.slots == 3
        invariant PartsLoaded(data, ids, i, multiplier, assigner.slotsPart, assigner.capacity)
      {
        SlotsOfArmor(data, ids[i]);
        PartLoaded(data, ids, i, multiplier, assigner.slotsPart, assigner.capacity);
        if !(BODY == i && multiplier > 1) {
          NotLoadedYet(data, ids, i, multiplier, assigner.slotsPart, assigner.capacity);
          assigner.AddPart(i, ids[i]);
        }
      }
    }

    method LoadJewels(assigner: JewelAssigner, counts: map<int, nat>)
      requires assigner.Valid() && assigner.data == data && assigner.slots == 3 && assigner.slotsJewel == [[], [], [], []]
      requires forall id :: id in counts ==> Usable(data, query, id)
      modifies assigner
      ensures assigner.Valid() && assigner.slotsPart == old(assigner.slotsPart) && assigner.capacity == old(assigner.capacity)
      ensures HoldsSome(multiset(assigner.WaitingIds()), counts, counts.Keys)
    {
      hide Listed, Loaded, JewelValid;
      var rest: set<int> := counts.Keys;
      while rest != {}
        invariant assigner.Valid() && assigner.slotsPart == old(assigner.slotsPart) && assigner.capacity == old(assigner.capacity)
        invariant assigner.slots == 3 && rest <= counts.Keys
        invariant HoldsSome(multiset(assigner.WaitingIds()), counts, counts.Keys - rest)
      {
        var id := Pick(rest);
        ghost var before := assigner.slotsJewel;
        assigner.AddJewel(id, counts[id]);
        MoreWaiting(before, assigner.slotsJewel, data.jewels[id].slots, id, counts[id]);
        rest := rest - {id};
      }
      assert counts.Keys - {} == counts.Keys;
    }

    /** Places the jewels of a plan: those of the body piece directly, the others through the assigner. */
    method Place(plan: JewelPlan, ghost ids: seq<int>, ghost bodyIds: seq<int>) returns (jewels: seq<seq<int>>)
      requires Configured() && IsAllowed(data, query, armors) && IsWholeArmors(data, armors)
      requires |current.ids| == PART_NUM && current.ids == Reversed(armors) && multiplier == Multiplied(data, armors)
      requires JewelsFit(data, query, armors, ids, bodyIds)
      requires Counts(plan.free, ids) && Counts(plan.body, bodyIds)
      ensures ArmorSet(current.ids, jewels).Valid(data) && NoPartOverfilled(data, ArmorSet(current.ids, jewels))
      ensures IsPlacement(data, armors, jewels, ids, bodyIds)
    {
      hide TableOf, NoOverflow, JewelsFit, Multiplied, IsPlacement, PartsLoaded, Accounted, Listed, Loaded, NoPartOverfilled,
        Taken, Flatten, Fits, HoldsSome, Counts, Query.Valid;
      SetArmors(data, armors);
      var bodyList := BodyJewels(plan, ids, bodyIds);
      CountsUsable(data, query, armors, plan.free, ids, bodyIds);
      var assigner := Load(plan.free);
      ghost var parts, waiting, capacity := assigner.slotsPart, assigner.slotsJewel, assigner.capacity;
      EverythingFits(data, query, armors, current.ids, parts, capacity, waiting, plan.free, ids, bodyIds);
      CapacityParts(data, current.ids, multiplier, parts, capacity);
      var start := [[], [], [], [], [], [], bodyList];
      jewels := assigner.AssignAll(start);
      PlacedAll(data, query, armors, current.ids, capacity, assigner.capacity, parts, start, jewels, waiting, ids, bodyIds, bodyList);
    }

    /** The jewels that go straight into the body piece. */
    method BodyJewels(plan: JewelPlan, ghost ids: seq<int>, ghost bodyIds: seq<int>) returns (bodyList: seq<int>)
      requires IsWholeArmors(data, armors) && multiplier == Multiplied(data, armors)
      requires JewelsFit(data, query, armors, ids, bodyIds) && Counts(plan.body, bodyIds)
      ensures multiset(bodyList) == multiset(bodyIds) && data.AreJewels(bodyList)
      ensures multiplier > 1 ==> Taken(data, bodyList) <= data.armors[armors[0]].slots
      ensures multiplier <= 1 ==> bodyList == []
    {
      hide JewelsFit, Multiplied, HoldsSome, Counts, Taken;
      MultipliedPositive(data, armors);
      bodyList := [];
      if multiplier > 1 {
        bodyList := TakeAll(plan.body);
      }
      BodyHeld(data, query, armors, plan.body, ids, bodyIds, bodyList);
    }

    /** An assigner with the parts and the other jewels. */
    method Load(counts: map<int, nat>) returns (assigner: JewelAssigner)
      requires data.Valid() && |current.ids| == PART_NUM && AreArmors(data, current.ids)
      requires forall id :: id in counts ==> Usable(data, query, id)
      ensures fresh(assigner) && assigner.Valid() && assigner.data == data
      ensures PartsLoaded(data, current.ids, PART_NUM, multiplier, assigner.slotsPart, assigner.capacity)
      ensures HoldsSome(multiset(assigner.WaitingIds()), counts, counts.Keys)
    {
      hide PartsLoaded, Listed, Loaded, HoldsSome, Usable, Data.Valid;
      assigner := new JewelAssigner(data);
      LoadParts(assigner, current.ids, multiplier);
      LoadJewels(assigner, counts);
    }
  }

  lemma TableData(solver: JewelSolver, data: Data, query: Query)
    requires TableOf(solver.table, data, query) && |query.effects| <= EFFECTS
    ensures solver.table.Valid() && solver.table.data == data && solver.table.effects == query.effects
  {
  }

  /** One armor set with keys that complete it, and enough defense. */
  ghost predicate RawReady(data: Data, query: Query, raw: RawArmorSet)
    requires |query.effects| <= EFFECTS
  {
    && IsAllowed(data, query, raw.ids) && |raw.ids| == PART_NUM && AreArmors(data, raw.ids)
    && Defense(data, raw.ids) >= query.defense && raw.jewelKeys != []
    && forall n :: 0 <= n < |raw.jewelKeys| ==> Completes(data, query, raw.ids, raw.jewelKeys[n])
  }

  lemma ReadyRaw(data: Data, query: Query, raws: seq<RawArmorSet>)
    requires |query.effects| <= EFFECTS && AllReady(data, query, raws) && raws != []
    ensures RawReady(data, query, raws[0]) && raws[0].jewelKeys != [] && AllReady(data, query, raws[1..])
  {
    hide Completes;
    assert RawKept(data, query, raws[0]);
    assert HasDefense(data, query, raws[0].ids);
  }

  /** Without a check for negative skills no set is rejected. */
  lemma NoneSkipped(data: Data, query: Query, raws: seq<RawArmorSet>, n: nat)
    requires |query.effects| <= EFFECTS && AllReady(data, query, raws) && n <= |raws| && AllRejected(data, query, raws[..n])
    ensures !query.avoidNegative ==> n == 0
  {
    hide Completes;
    if n > 0 {
      assert RawKept(data, query, raws[0]);
      assert RawRejected(data, query, raws[..n][0]);
      assert KeyRejected(data, query, raws[0].ids, raws[0].jewelKeys[0]);
    }
  }

  lemma NoneReady(data: Data, query: Query)
    requires |query.effects| <= EFFECTS
    ensures AllReady(data, query, [])
  {
  }

  lemma BodyHeld(data: Data, query: Query, t: seq<int>, counts: map<int, nat>, ids: seq<int>, bodyIds: seq<int>, bodyList: seq<int>)
    requires IsWholeArmors(data, t) && JewelsFit(data, query, t, ids, bodyIds) && Counts(counts, bodyIds)
    requires if Multiplied(data, t) > 1 then HoldsSome(multiset(bodyList), counts, counts.Keys) else bodyList == []
    requires Multiplied(data, t) >= 1
    ensures multiset(bodyList) == multiset(bodyIds) && data.AreJewels(bodyList)
    ensures Multiplied(data, t) > 1 ==> Taken(data, bodyList) <= data.armors[t[0]].slots
  {
    hide Multiplied, Usable, SizesOf, Fits, Counts, HoldsSome, FreeSlots;
    if Multiplied(data, t) > 1 {
      HeldAll(bodyList, counts, bodyIds);
    }
    SameUsable(data, query, bodyIds, bodyList);
    UsableAreJewels(data, query, bodyIds);
    UsableSized(data, query, bodyList);
    SameSizes(data, bodyIds, bodyList);
  }

  lemma SameUsable(data: Data, query: Query, a: seq<int>, b: seq<int>)
    requires AllUsable(data, query, a) && multiset(a) == multiset(b)
    ensures AllUsable(data, query, b) && data.AreJewels(b)
  {
    hide Usable;
    forall n | 0 <= n < |b|
      ensures Usable(data, query, b[n])
    {
      assert b[n] in multiset(a);
      var i :| 0 <= i < |a| && a[i] == b[n];
    }
    UsableAreJewels(data, query, b);
  }

  lemma SameSizes(data: Data, a: seq<int>, b: seq<int>)
    requires data.AreJewels(a) && data.AreJewels(b) && multiset(a) == multiset(b)
    ensures SizesOf(data, a) == SizesOf(data, b)
  {
    hide SizeCount;
    SameJewels(data, a, b, 1, 0);
    SameJewels(data, a, b, 2, 0);
    SameJewels(data, a, b, 3, 0);
  }

  lemma CountsUsable(data: Data, query: Query, t: seq<int>, counts: map<int, nat>, ids: seq<int>, bodyIds: seq<int>)
    requires IsWholeArmors(data, t) && JewelsFit(data, query, t, ids, bodyIds) && Counts(counts, ids)
    ensures forall id :: id in counts ==> Usable(data, query, id)
  {
    hide Multiplied, Usable, SizesOf, Fits, FreeSlots;
    forall id | id in counts
      ensures Usable(data, query, id)
    {
      var n :| 0 <= n < |ids| && ids[n] == id;
    }
  }

  /** The loaded jewels meet the packing inequalities for the loaded parts. */
  lemma EverythingFits(data: Data, query: Query, t: seq<int>, parts: seq<int>, lists: BySize, capacity: map<int, int>,
                       waiting: BySize, counts: map<int, nat>, ids: seq<int>, bodyIds: seq<int>)
    requires data.Valid() && IsWhole(data, t) && IsWholeArmors(data, t) && parts == Reversed(t) && AreArmors(data, parts)
    requires JewelsFit(data, query, t, ids, bodyIds) && Counts(counts, ids) && Loaded(data, waiting)
    requires PartsLoaded(data, parts, PART_NUM, Multiplied(data, t), lists, capacity)
    requires HoldsSome(multiset(waiting[1] + waiting[2] + waiting[3]), counts, counts.Keys)
    ensures multiset(waiting[1] + waiting[2] + waiting[3]) == multiset(ids)
    ensures Fits(Slots(|lists[1]|, |lists[2]|, |lists[3]|), Slots(|waiting[1]|, |waiting[2]|, |waiting[3]|))
  {
    hide Multiplied, Usable, SizesOf, Fits, FreeSlots, BodySpace, HoldsSome, Counts, PartsLoaded, Loaded, Data.Valid, IsWhole;
    var all := waiting[1] + waiting[2] + waiting[3];
    LoadedSlots(data, t, parts, lists, capacity);
    HeldAll(all, counts, ids);
    WaitingSizes(data, waiting);
    UsableAreJewels(data, query, ids);
    SameSizes(data, ids, all);
  }

  lemma CapacityParts(data: Data, ids: seq<int>, multiplier: int, parts: BySize, capacity: map<int, int>)
    requires |ids| == PART_NUM && AreArmors(data, ids)
    requires PartsLoaded(data, ids, PART_NUM, multiplier, parts, capacity)
    ensures forall p :: p in capacity ==> 0 <= p < PART_NUM
  {
  }

  lemma PlacedAll(data: Data, query: Query, t: seq<int>, parts: seq<int>, before: map<int, int>, after: map<int, int>, lists: BySize,
                  start: seq<seq<int>>, jewels: seq<seq<int>>, waiting: BySize, ids: seq<int>, bodyIds: seq<int>, bodyList: seq<int>)
    requires IsWhole(data, t) && IsWholeArmors(data, t) && parts == Reversed(t) && AreArmors(data, parts)
    requires PartsLoaded(data, parts, PART_NUM, Multiplied(data, t), lists, before)
    requires start == [[], [], [], [], [], [], bodyList] && Accounted(data, before, after, start, jewels)
    requires multiset(Flatten(jewels)) == multiset(Flatten(start)) + multiset(waiting[1] + waiting[2] + waiting[3])
    requires multiset(waiting[1] + waiting[2] + waiting[3]) == multiset(ids) && multiset(bodyList) == multiset(bodyIds)
    requires data.AreJewels(bodyList) && (Multiplied(data, t) <= 1 ==> bodyList == [])
    requires Multiplied(data, t) > 1 ==> Taken(data, bodyList) <= data.armors[t[0]].slots
    ensures ArmorSet(parts, jewels).Valid(data) && NoPartOverfilled(data, ArmorSet(parts, jewels))
    ensures IsPlacement(data, t, jewels, ids, bodyIds)
  {
    hide Multiplied, PartsWith, Flatten, Taken, Reversed, IsWhole;
    OnlyLast(bodyList);
    SetParts(data, t);
    PartsTaken(data, t, parts, before, after, lists, start, jewels, bodyList);
    PlacedBody(data, t, before, after, start, jewels, bodyIds, bodyList, parts, lists);
  }

  lemma SetParts(data: Data, t: seq<int>)
    requires IsWhole(data, t)
    ensures |Reversed(t)| == PART_NUM && Reversed(t)[BODY] == t[0]
  {
  }

  lemma PlacedBody(data: Data, t: seq<int>, before: map<int, int>, after: map<int, int>, start: seq<seq<int>>, jewels: seq<seq<int>>,
                   bodyIds: seq<int>, bodyList: seq<int>, parts: seq<int>, lists: BySize)
    requires IsWhole(data, t) && IsWholeArmors(data, t) && |parts| == PART_NUM && AreArmors(data, parts)
    requires PartsLoaded(data, parts, PART_NUM, Multiplied(data, t), lists, before)
    requires start == [[], [], [], [], [], [], bodyList] && Accounted(data, before, after, start, jewels)
    requires multiset(bodyList) == multiset(bodyIds)
    ensures |jewels| == PART_NUM && (Multiplied(data, t) > 1 ==> multiset(jewels[BODY]) == multiset(bodyIds))
  {
    hide Multiplied, PartsWith, Taken;
  }

  /** Every part holds what its own slots have given, and the body piece what was put there before. */
  lemma PartsTaken(data: Data, t: seq<int>, parts: seq<int>, before: map<int, int>, after: map<int, int>, lists: BySize,
                   start: seq<seq<int>>, jewels: seq<seq<int>>, bodyList: seq<int>)
    requires IsWhole(data, t) && IsWholeArmors(data, t) && |parts| == PART_NUM && parts[BODY] == t[0] && AreArmors(data, parts)
    requires PartsLoaded(data, parts, PART_NUM, Multiplied(data, t), lists, before)
    requires start == [[], [], [], [], [], [], bodyList] && Accounted(data, before, after, start, jewels)
    requires data.AreJewels(bodyList) && (Multiplied(data, t) <= 1 ==> bodyList == [])
    requires Multiplied(data, t) > 1 ==> Taken(data, bodyList) <= data.armors[t[0]].slots
    ensures |jewels| == PART_NUM && forall p :: 0 <= p < PART_NUM ==>
      data.AreJewels(jewels[p]) && Taken(data, jewels[p]) <= data.armors[parts[p]].slots
  {
    hide Multiplied, PartsWith, Taken;
    NothingTaken(data);
    forall p | 0 <= p < PART_NUM
      ensures data.AreJewels(jewels[p]) && Taken(data, jewels[p]) <= data.armors[parts[p]].slots
    {
      if p in before {
        assert start[p] == [];
      } else {
        assert p == BODY;
      }
    }
  }

  lemma NothingTaken(data: Data)
    ensures Taken(data, []) == 0
  {
  }

  lemma OnlyLast(bodyList: seq<int>)
    ensures Flatten([[], [], [], [], [], [], bodyList]) == bodyList
  {
    var all := [[], [], [], [], [], [], bodyList];
    FlattenLast(all);
    FlattenIsBelow(all, BODY);
    assert JewelsBelow(all, 1) == [] && JewelsBelow(all, 2) == [] && JewelsBelow(all, 3) == [];
    assert JewelsBelow(all, 4) == [] && JewelsBelow(all, 5) == [] && JewelsBelow(all, 6) == [];
  }

  /** Armor sets with their keys, all of them with enough defense. */
  ghost predicate AllReady(data: Data, query: Query, raws: seq<RawArmorSet>)
    requires |query.effects| <= EFFECTS
  {
    AllRawKept(data, query, raws) && forall n :: 0 <= n < |raws| ==> HasDefense(data, query, raws[n].ids)
  }

  predicate HasDefense(data: Data, query: Query, t: seq<int>) {
    AreArmors(data, t) && Defense(data, t) >= query.defense
  }

  lemma SlotsOfArmor(data: Data, id: int)
    requires data.Valid() && data.IsArmor(id)
    ensures 0 <= data.armors[id].slots <= 3
  {
    assert ValidArmor(data.armors[id]);
  }

  lemma NotLoadedYet(data: Data, ids: seq<int>, n: nat, multiplier: int, parts: BySize, capacity: map<int, int>)
    requires |ids| == PART_NUM && AreArmors(data, ids) && n < PART_NUM
    requires PartsLoaded(data, ids, n, multiplier, parts, capacity)
    ensures n !in capacity
  {
  }

  lemma MoreWaiting(before: BySize, after: BySize, size: int, id: int, q: nat)
    requires 1 <= size <= 3 && after == before[size := before[size] + seq(q, _ => id)]
    ensures forall x ::
      multiset(after[1] + after[2] + after[3])[x] ==
      multiset(before[1] + before[2] + before[3])[x] + if x == id then q else 0
  {
    CopiesAdded(before[size], id, q);
    forall x
      ensures multiset(after[1] + after[2] + after[3])[x]
           == multiset(before[1] + before[2] + before[3])[x] + if x == id then q else 0
    {
      ThreeCounts(before, x);
      ThreeCounts(after, x);
    }
  }

  lemma ThreeCounts(lists: BySize, x: int)
    ensures multiset(lists[1] + lists[2] + lists[3])[x] == multiset(lists[1])[x] + multiset(lists[2])[x] + multiset(lists[3])[x]
  {
  }
}
