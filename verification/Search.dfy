/** The whole search: from the query to finished armor sets. */
module Searches {
  import opened Signatures
  import opened Datasets
  import opened NodePools
  import opened AndGroups
  import opened FoundationSteps
  import opened Foundations
  import opened Scorings
  import opened SkillSplitters
  import opened Iterators
  import opened Unpackers
  import opened TreeLists
  import opened Candidates
  import opened PointBounds
  import opened JewelPruners
  import opened ClientVectors
  import opened SplitStages
  import opened SkillSplitPruners
  import opened RawSets
  import opened RootCounts
  import opened Drains
  import opened Placements
  import opened FinalSteps
  import opened Finalizers
  import opened Stats
  import opened Enumerations
  import opened Solutions
  import opened CleanSolutions
  import opened Reaching
  import opened StageSteps
  import opened Completeness

  /** What a query takes for granted about the numbers in the data. */
  ghost predicate Searchable(data: Data, query: Query) {
    Ready(data, query) && NoOverflow(data, query) && SplitKeysFit(data, query)
  }

  // ---------- The search ----------

  /** The armor set comes through all stages with some jewel key, and has the defense. */
  ghost predicate Found(data: Data, query: Query, t: seq<int>)
    requires 1 <= |query.effects| <= EFFECTS
  {
    Alive(data, query, t, |query.effects|) && AreArmors(data, t) && Defense(data, t) >= query.defense
  }

  class ArmorUp {
    const data: Data

    constructor (data: Data)
      ensures this.data == data
    {
      this.data := data;
    }

    method FoundationRoots(pool: NodePool, query: Query) returns (roots: seq<TreeRoot>)
      requires Ready(data, query) && pool.State().Valid()
      modifies pool
      ensures pool.State().Valid() && IsFoundation(pool.State(), data, query, roots)
    {
      hide IsForest, IsFoundation, Pool.Valid, Data.Valid, Query.Valid;
      var builder := new FoundationBuilder(data, pool);
      var forest := builder.Foundation(query);
      roots := [];
      ForestAreOrs(pool.State(), data, query, forest);
      ghost var p := pool.State();
      for n := 0 to |forest|
        invariant pool.State() == p && |roots| == n
        invariant forall i :: 0 <= i < n ==> IsRootOf(p, forest[i], roots[i])
      {
        roots := roots + [TreeRoot(forest[n], [], Multiplier(pool.ors[forest[n]].key))];
      }
      FoundationDone(pool.State(), data, query, forest, roots);
    }

    /** The first two effects: trees are kept if jewels can complete them, each with all keys of such jewels. */
    method ApplyJewelFilters(pool: NodePool, query: Query, foundation: seq<TreeRoot>) returns (roots: seq<TreeRoot>)
      requires Ready(data, query) && 1 <= |query.effects| <= EFFECTS && pool.State().Valid()
      requires IsFoundation(pool.State(), data, query, foundation)
      ensures IsStage(pool.State(), data, query, roots, FoundationCount(query))
    {
      hide Pool.Valid, Data.Valid, Query.Valid, IsFoundation, IsStage, AllKept;
      FoundationKept(pool.State(), data, query, foundation);
      roots := Filter(pool, query, foundation, 0);
      FirstFiltered(pool.State(), data, query, foundation, roots);
      for i := 1 to FoundationCount(query)
        invariant IsStage(pool.State(), data, query, roots, i)
      {
        ghost var before := roots;
        StageKept(pool.State(), data, query, roots, i);
        roots := Filter(pool, query, roots, i);
        FilteredMore(pool.State(), data, query, before, roots, i);
      }
    }

    /** One filter. */
    method Filter(pool: NodePool, query: Query, before: seq<TreeRoot>, i: nat) returns (roots: seq<TreeRoot>)
      requires Ready(data, query) && i < |query.effects| <= EFFECTS && pool.State().Valid()
      requires AllKept(pool.State(), data, query, before, FoundationCount(query), i)
      ensures IsFiltered(pool.State(), data, query, before, roots, i)
    {
      hide Pool.Valid, Ready, AllKept, EffectClasses, InverseKey, CountRoots, KeptCount, JewelPruner.Valid, Carries, Prunes, AllNonempty;
      var source := new ListIterator(before);
      var pruner := new JewelPruner(source, pool, data, query, i);
      PrunerBounds(pruner);
      roots := DrainJewels(pruner);
      FilteredAll(roots);
    }

    /** One splitter for every effect. */
    method MakeSplitters(pool: NodePool, query: Query) returns (splitters: seq<SkillSplitter>)
      requires Ready(data, query) && |query.effects| <= EFFECTS
      ensures |splitters| == |query.effects|
      ensures forall i :: 0 <= i < |splitters| ==>
        splitters[i].pool == pool && splitters[i].effectId == i && ScoresSkill(splitters[i].scoring, data, query.effects[i].id)
    {
      hide Data.Valid, Query.Valid, ScoresSkill;
      splitters := [];
      for i := 0 to |query.effects|
        invariant |splitters| == i
        invariant forall j :: 0 <= j < i ==>
          splitters[j].pool == pool && splitters[j].effectId == j && ScoresSkill(splitters[j].scoring, data, query.effects[j].id)
      {
        var splitter := new SkillSplitter(data, pool, i, query.effects[i].id);
        splitters := splitters + [splitter];
      }
    }

    /** The other effects: trees are split, and the parts kept that jewels can complete. */
    method ApplySplitters(pool: NodePool, query: Query, filtered: seq<TreeRoot>) returns (roots: seq<TreeRoot>)
      requires Searchable(data, query) && 1 <= |query.effects| <= EFFECTS && pool.State().Valid()
      requires IsStage(pool.State(), data, query, filtered, FoundationCount(query))
      modifies pool
      ensures pool.State().Valid() && IsStage(pool.State(), data, query, roots, |query.effects|)
    {
      hide Pool.Valid, Data.Valid, Query.Valid, ClientVector.Valid, NoOverflow, SplitKeysFit, ScoresSkill, IsStage;
      roots := filtered;
      var clients := new ClientVector(data, query);
      var splitters := MakeSplitters(pool, query);
      for i := FoundationCount(query) to |query.effects|
        invariant pool.State().Valid() && clients.Valid() && fresh(clients.Caches())
        invariant IsStage(pool.State(), data, query, roots, i)
      {
        roots := SplitBy(pool, query, roots, i, clients, splitters);
      }
    }

    /** One split. */
    method SplitBy(pool: NodePool, query: Query, before: seq<TreeRoot>, i: nat, clients: ClientVector, splitters: seq<SkillSplitter>)
      returns (roots: seq<TreeRoot>)
      requires Searchable(data, query) && FoundationCount(query) <= i < |query.effects| <= EFFECTS && i >= 1 && pool.State().Valid()
      requires clients.Valid() && clients.data == data && clients.query == query && |splitters| == |query.effects|
      requires forall j :: 0 <= j < |splitters| ==>
        splitters[j].pool == pool && splitters[j].effectId == j && ScoresSkill(splitters[j].scoring, data, query.effects[j].id)
      requires IsStage(pool.State(), data, query, before, i)
      modifies pool, clients.Caches()
      ensures pool.State().Valid() && clients.Valid() && IsStage(pool.State(), data, query, roots, i + 1)
    {
      hide Pool.Valid, Data.Valid, Query.Valid, RootKept, ClientVector.Valid, NoOverflow, SplitKeysFit, AllComplete, ScoresSkill, IsStage,
        Carries, CountRoots, SplitsSome, SplitCount, SkillSplitPruner.ToCome, SkillSplitPruner.CountToCome, SkillSplitPruner.Valid, Ready;
      ghost var older := pool.State();
      StageComplete(older, data, query, before, i);
      var source := new ListIterator(before);
      var pruner := new SkillSplitPruner(source, pool, data, query, i, clients, splitters);
      AllToCome(pruner);
      roots := DrainSplits(pruner);
      PrunerState(pruner);
      SplitMore(older, pool.State(), data, query, before, roots, i);
    }

    /** The stages that work on trees: what is left are the armor sets that come through all of them. */
    method PrepareTrees(query: Query) returns (pool: NodePool, roots: seq<TreeRoot>)
      requires Searchable(data, query)
      ensures fresh(pool) && pool.State().Valid() && IsStage(pool.State(), data, query, roots, |query.effects|)
    {
      hide NoOverflow, SplitKeysFit, IsStage, IsFoundation, Ready;
      SearchableBounds(data, query);
      pool := new NodePool();
      var trees := FoundationRoots(pool, query);
      var filtered := ApplyJewelFilters(pool, query, trees);
      roots := ApplySplitters(pool, query, filtered);
    }

    /** The stages that work on armor sets. */
    method PrepareOutput(pool: NodePool, roots: seq<TreeRoot>, query: Query) returns (defended: seq<RawArmorSet>)
      requires Ready(data, query) && NoOverflow(data, query) && |query.effects| <= EFFECTS
      requires pool.State().Valid() && AllComplete(pool.State(), data, query, roots, |query.effects|)
      ensures AllReady(data, query, defended)
      ensures RootsOk(pool.State(), roots) && AllHaveArmors(data, SetsOfRoots(pool.State(), roots))
      ensures defended == Defended(data, SetsOfRoots(pool.State(), roots), query.defense)
    {
      hide Ready, NoOverflow, AllComplete, SetsOfRoots, AllReady, Defended, AllRawKept, RootsOk, AllHaveArmors, Pool.Valid;
      UnpackedKept(pool.State(), data, query, roots);
      DefendedReady(data, query, SetsOfRoots(pool.State(), roots), query.defense);
      var trees := new ListIterator(roots);
      var unpacker := new Unpacker(trees, pool);
      var raws := DrainSets(unpacker);
      var unpacked := new ListIterator(raws);
      var pruner := new DefensePruner(unpacked, data, query.defense);
      defended := DrainDefended(pruner);
    }

    /** The stages, one after another: exactly the sets that come through reach the finalizer, each once. */
    method SearchCore(query: Query) returns (finalizer: Finalizer)
      requires Searchable(data, query)
      ensures fresh(finalizer) && fresh(finalizer.source) && finalizer.Valid() && finalizer.jewelKeys == []
      ensures finalizer.data == data && finalizer.query == query && finalizer.maxPerSet == 1
      ensures forall t :: CountRaws(finalizer.source.Remaining(), t) == if Found(data, query, t) then 1 else 0
      ensures KeysAre(data, query, finalizer.source.Remaining())
    {
      hide Ready, NoOverflow, SplitKeysFit, AllComplete, IsStage, SetsOfRoots, AllReady, Defended, Found, CountRaws, RootsOk,
        Finalizer.Valid, AllHaveArmors, KeysAre;
      SearchableBounds(data, query);
      var pool, roots := PrepareTrees(query);
      StageComplete(pool.State(), data, query, roots, |query.effects|);
      var defended := PrepareOutput(pool, roots, query);
      SearchExact(pool.State(), data, query, roots);
      SearchKeys(pool.State(), data, query, roots);
      var source := new ListIterator(defended);
      finalizer := new Finalizer(source, query, data, 1);
    }

    /** The first results, up to the number asked for. Each is what the query asks for. `all` lists the armors that reach the
        finalizer: exactly those that come through all stages, each once; under the conditions of completeness these are the
        armors that have a solution. The results have the armors at the increasing positions `at`, and what they leave out before
        position `upto` is rejected for negative skills; the search stops there only if it has enough results. When no jewel
        changes the points of skills that can turn negative, the results up to there are those of exactly the armors that have a
        solution free of them. The loop stops after the result that makes up the number; a negative number, compared as an unsigned
        one, is no limit. */
    method Search(query: Query) returns (results: seq<ArmorSet>, ghost all: seq<seq<int>>, ghost at: seq<nat>, ghost upto: nat)
      requires Searchable(data, query)
      ensures forall n :: 0 <= n < |results| ==> IsResult(data, query, results[n]) && IsSolutionSet(data, query, results[n])
      ensures forall n :: 0 <= n < |results| ==>
        results[n].Valid(data) && data.armors[results[n].ids[4]].slots == query.armorFilter.weaponSlots
      ensures forall ids :: multiset(all)[ids] == if Found(data, query, Reversed(ids)) then 1 else 0
      ensures NoSpoilers(data, query) && AlwaysLossless(data, query) ==>
        forall ids :: multiset(all)[ids] == if Qualifies(data, query, ids) then 1 else 0
      ensures |at| == |results| && upto <= |all| && forall m, n :: 0 <= m < n < |at| ==> at[m] < at[n]
      ensures forall n :: 0 <= n < |at| ==> at[n] < upto && results[n].ids == all[at[n]]
      ensures forall i :: 0 <= i < upto && i !in at ==> Rejected(data, query, Reversed(all[i]))
      ensures query.avoidNegative && NoneTurns(data, query) ==>
        forall i :: 0 <= i < upto ==> (i in at <==> CleanQualifies(data, query, all[i]))
      ensures query.maxResults > 0 ==> |results| <= query.maxResults && (upto == |all| || |results| == query.maxResults)
      ensures query.maxResults == 0 ==> |results| <= 1 && (upto == |all| || |results| == 1)
      ensures query.maxResults < 0 ==> upto == |all|
      ensures !query.avoidNegative ==> upto == |results| && forall n :: 0 <= n < |results| ==> results[n].ids == all[n]
    {
      hide Searchable, IsResult, Qualifies, CountRaws, Reversed, Finalizer.Valid, AllIds, Found, NoSpoilers, AlwaysLossless, KeysAre,
        NoneTurns, CleanQualifies, Rejected, IsSolutionSet;
      SearchableBounds(data, query);
      var finalizer := SearchCore(query);
      SourceValid(finalizer);
      ghost var raws := finalizer.source.Remaining();
      all := AllIds(raws);
      AllIdsCount(data, query, raws);
      if NoSpoilers(data, query) && AlwaysLossless(data, query) {
        FoundIsSolvable(data, query);
      }
      results, at, upto := TakeResults(finalizer, query, raws);
      ChosenPicked(data, query, raws, results, at, upto);
      BeginsWith(data, query, raws, results, at, upto);
      ResultsSolve(data, query, all, results, at, upto);
      if query.avoidNegative && NoneTurns(data, query) {
        PickedClean(data, query, all, results, at, upto);
      }
    }

    /** Takes results from the finalizer until there are enough. */
    method TakeResults(finalizer: Finalizer, query: Query, ghost raws: seq<RawArmorSet>)
      returns (results: seq<ArmorSet>, ghost at: seq<nat>, ghost upto: nat)
      requires finalizer.Valid() && finalizer.source.Valid() && finalizer.data == data && finalizer.query == query
      requires |query.effects| <= EFFECTS
      requires finalizer.AtEnd() && finalizer.maxPerSet == 1 && raws == finalizer.source.Remaining()
      modifies finalizer, finalizer.source
      ensures forall n :: 0 <= n < |results| ==> IsResult(data, query, results[n])
      ensures Chosen(data, query, raws, results, at, upto) && (!query.avoidNegative ==> upto == |results|)
      ensures query.maxResults > 0 ==> |results| <= query.maxResults && (upto == |raws| || |results| == query.maxResults)
      ensures query.maxResults == 0 ==> |results| <= 1 && (upto == |raws| || |results| == 1)
      ensures query.maxResults < 0 ==> upto == |raws|
    {
      hide IsResult, Reversed, Finalizer.Valid, AllResults, Chosen, AllRejected, RawRejected, Finalizer.AtEnd, ListIterator.Remaining;
      results, at := [], [];
      NoneChosen(data, query, raws);
      assert raws[0..] == raws;
      var more;
      more, upto := NextResult(finalizer, raws, 0);
      SkipChosen(data, query, raws, results, at, 0, upto);
      while more
        invariant finalizer.Valid() && finalizer.source.Valid() && upto <= |raws| && (more <==> upto < |raws|)
        invariant more ==>
          && IsResult(data, query, finalizer.current) && finalizer.AtEnd() && finalizer.current.ids == Reversed(raws[upto].ids)
          && finalizer.source.Remaining() == raws[upto + 1..]
        invariant AllResults(data, query, results) && Chosen(data, query, raws, results, at, upto)
        invariant query.maxResults >= 0 ==> |results| == 0 || |results| < query.maxResults
        invariant !query.avoidNegative ==> upto == |results|
        decreases more, |raws| - upto
      {
        OneMoreResult(data, query, results, finalizer.current);
        OneMoreChosen(data, query, raws, results, at, upto, finalizer.current);
        results, at := results + [finalizer.current], at + [upto];
        upto := upto + 1;
        if query.maxResults >= 0 && |results| >= query.maxResults {
          break;
        }
        ghost var from := upto;
        more, upto := NextResult(finalizer, raws, from);
        SkipChosen(data, query, raws, results, at, from, upto);
      }
      ResultsAre(data, query, results);
    }

    /** One more result, of the set at `next`; the sets from `from` up to there are rejected. */
    method NextResult(finalizer: Finalizer, ghost raws: seq<RawArmorSet>, ghost from: nat) returns (more: bool, ghost next: nat)
      requires finalizer.Valid() && finalizer.source.Valid() && finalizer.data == data && finalizer.maxPerSet == 1
      requires finalizer.AtEnd() && from <= |raws| && finalizer.source.Remaining() == raws[from..]
      requires |finalizer.query.effects| <= EFFECTS
      modifies finalizer, finalizer.source
      ensures finalizer.Valid() && finalizer.source.Valid() && from <= next <= |raws| && (more <==> next < |raws|)
      ensures AllRejected(data, finalizer.query, raws[from..next]) && (!finalizer.query.avoidNegative ==> next == from)
      ensures more ==>
        && IsResult(data, finalizer.query, finalizer.current) && finalizer.AtEnd()
        && finalizer.current.ids == Reversed(raws[next].ids) && finalizer.source.Remaining() == raws[next + 1..]
    {
      hide IsResult, Reversed, Finalizer.Valid, AllRejected;
      ghost var skipped;
      more, skipped := finalizer.Next();
      next := from + skipped;
      assert raws[from..][..skipped] == raws[from..next];
      SourceValid(finalizer);
    }
  }

  /** The results have the first armors of the list, in its order. */
  predicate Begins(results: seq<ArmorSet>, all: seq<seq<int>>) {
    |results| <= |all| && forall n :: 0 <= n < |results| ==> results[n].ids == all[n]
  }

  /** The results have the armors at the given positions of the list, in its order. */
  predicate IsPick(all: seq<seq<int>>, results: seq<ArmorSet>, at: seq<nat>, upto: nat) {
    && |at| == |results| && upto <= |all|
    && (forall m, n :: 0 <= m < n < |at| ==> at[m] < at[n])
    && (forall n :: 0 <= n < |at| ==> at[n] < upto && results[n].ids == all[at[n]])
  }

  /** All jewel keys with which the set comes through make a negative skill active. */
  ghost predicate Rejected(data: Data, query: Query, t: seq<int>)
    requires 1 <= |query.effects| <= EFFECTS
  {
    query.avoidNegative && forall jewelKey :: Reached(data, query, t, |query.effects|, jewelKey) ==> KeyRejected(data, query, t, jewelKey)
  }

  /** When no jewel changes the points of skills that can turn negative, nothing is rejected that has a solution free of them. */
  lemma RejectedNotClean(data: Data, query: Query, t: seq<int>)
    requires Searchable(data, query) && NoneTurns(data, query) && Found(data, query, t) && Rejected(data, query, t)
    ensures !CleanQualifies(data, query, Reversed(t))
  {
    hide Ready, NoOverflow, SplitKeysFit, NoneTurns, CleanQualifies, Reached, KeyRejected, Reversed, PointBounds.IsAllowed, ArmorsTurn,
      Completes;
    SearchableBounds(data, query);
    assert Alive(data, query, t, |query.effects|);
    var jewelKey :| Reached(data, query, t, |query.effects|, jewelKey);
    ReachedCompletes(data, query, t, jewelKey);
    CompletesAllowed(data, query, t, jewelKey);
    RejectedTurns(data, query, t, jewelKey);
    ReadyQuery(data, query);
    TurnedNotClean(data, query, t);
  }

  /** Every result has admitted armors and jewels, and is a solution. */
  lemma ResultsSolve(data: Data, query: Query, all: seq<seq<int>>, results: seq<ArmorSet>, at: seq<nat>, upto: nat)
    requires 1 <= |query.effects| <= EFFECTS && IsPick(all, results, at, upto)
    requires forall ids :: multiset(all)[ids] == if Found(data, query, Reversed(ids)) then 1 else 0
    requires forall n :: 0 <= n < |results| ==> IsResult(data, query, results[n])
    ensures forall n :: 0 <= n < |results| ==> IsSolutionSet(data, query, results[n])
    ensures forall n :: 0 <= n < |results| ==>
        results[n].Valid(data) && data.armors[results[n].ids[4]].slots == query.armorFilter.weaponSlots
  {
    hide Found, IsResult, Reversed, IsSolutionSet;
    forall n | 0 <= n < |results|
      ensures IsSolutionSet(data, query, results[n]) && results[n].Valid(data)
      ensures data.armors[results[n].ids[4]].slots == query.armorFilter.weaponSlots
    {
      assert multiset(all)[all[at[n]]] > 0;
      ReversedTwice(results[n].ids);
      FoundResult(data, query, Reversed(results[n].ids), results[n]);
    }
  }

  lemma FoundResult(data: Data, query: Query, t: seq<int>, armors: ArmorSet)
    requires 1 <= |query.effects| <= EFFECTS && Found(data, query, t) && armors.ids == Reversed(t) && IsResult(data, query, armors)
    ensures IsSolutionSet(data, query, armors) && armors.Valid(data) && data.armors[armors.ids[4]].slots == query.armorFilter.weaponSlots
  {
    hide Reached, Reversed, IsResult, IsSolutionSet, PointBounds.IsAllowed;
    assert Alive(data, query, t, |query.effects|);
    var jewelKey :| Reached(data, query, t, |query.effects|, jewelKey);
    ReachedAllowed(data, query, t, |query.effects|, jewelKey);
    ResultSolution(data, query, t, armors);
  }

  lemma ReadyQuery(data: Data, query: Query)
    requires Ready(data, query)
    ensures query.Valid()
  {
  }

  /** Then the results are those of exactly the armors with such a solution. */
  lemma PickedClean(data: Data, query: Query, all: seq<seq<int>>, results: seq<ArmorSet>, at: seq<nat>, upto: nat)
    requires Searchable(data, query) && query.avoidNegative && NoneTurns(data, query)
    requires 1 <= |query.effects| <= EFFECTS
    requires forall ids :: multiset(all)[ids] == if Found(data, query, Reversed(ids)) then 1 else 0
    requires forall n :: 0 <= n < |results| ==> IsResult(data, query, results[n]) && IsSolutionSet(data, query, results[n])
    requires IsPick(all, results, at, upto)
    requires forall i :: 0 <= i < upto && i !in at ==> Rejected(data, query, Reversed(all[i]))
    ensures forall i :: 0 <= i < upto ==> (i in at <==> CleanQualifies(data, query, all[i]))
  {
    hide Searchable, NoneTurns, CleanQualifies, Rejected, Found, IsResult, Reversed, IsSolutionSet;
    forall i | 0 <= i < upto
      ensures i in at <==> CleanQualifies(data, query, all[i])
    {
      assert multiset(all)[all[i]] > 0;
      var t := Reversed(all[i]);
      ReversedTwice(all[i]);
      if i in at {
        var n :| 0 <= n < |at| && at[n] == i;
        ResultClean(data, query, results[n]);
      } else {
        RejectedNotClean(data, query, t);
      }
    }
  }

  /** Each unpacked set has all the keys with which it comes through. */
  ghost predicate KeysAre(data: Data, query: Query, raws: seq<RawArmorSet>)
    requires 1 <= |query.effects| <= EFFECTS
  {
    forall i :: 0 <= i < |raws| ==> HasKeys(data, query, raws[i].ids, raws[i].jewelKeys)
  }

  ghost predicate HasKeys(data: Data, query: Query, t: seq<int>, keys: seq<Signature>)
    requires 1 <= |query.effects| <= EFFECTS
  {
    keys != [] && forall jewelKey :: jewelKey in keys <==> Reached(data, query, t, |query.effects|, jewelKey)
  }

  /** The results are of the unpacked sets at the given positions, and the others before `upto` are rejected. */
  ghost predicate Chosen(data: Data, query: Query, raws: seq<RawArmorSet>, results: seq<ArmorSet>, at: seq<nat>, upto: nat)
    requires |query.effects| <= EFFECTS
  {
    && |at| == |results| && upto <= |raws|
    && (forall m, n :: 0 <= m < n < |at| ==> at[m] < at[n])
    && (forall n :: 0 <= n < |at| ==> at[n] < upto && results[n].ids == Reversed(raws[at[n]].ids))
    && (forall i :: 0 <= i < upto && i !in at ==> RawRejected(data, query, raws[i]))
  }

  lemma NoneChosen(data: Data, query: Query, raws: seq<RawArmorSet>)
    requires |query.effects| <= EFFECTS
    ensures Chosen(data, query, raws, [], [], 0) && AllResults(data, query, [])
  {
  }

  lemma SkipChosen(data: Data, query: Query, raws: seq<RawArmorSet>, results: seq<ArmorSet>, at: seq<nat>, from: nat, upto: nat)
    requires |query.effects| <= EFFECTS && from <= upto <= |raws|
    requires Chosen(data, query, raws, results, at, from) && AllRejected(data, query, raws[from..upto])
    ensures Chosen(data, query, raws, results, at, upto)
  {
    hide Reversed, RawRejected;
    forall i | from <= i < upto
      ensures RawRejected(data, query, raws[i])
    {
      assert raws[from..upto][i - from] == raws[i];
    }
  }

  lemma OneMoreChosen(data: Data, query: Query, raws: seq<RawArmorSet>, results: seq<ArmorSet>, at: seq<nat>, upto: nat, more: ArmorSet)
    requires |query.effects| <= EFFECTS && upto < |raws| && Chosen(data, query, raws, results, at, upto)
    requires more.ids == Reversed(raws[upto].ids)
    ensures Chosen(data, query, raws, results + [more], at + [upto], upto + 1)
  {
    hide Reversed, RawRejected;
  }

  lemma ChosenPicked(data: Data, query: Query, raws: seq<RawArmorSet>, results: seq<ArmorSet>, at: seq<nat>, upto: nat)
    requires 1 <= |query.effects| <= EFFECTS && Chosen(data, query, raws, results, at, upto) && KeysAre(data, query, raws)
    ensures IsPick(AllIds(raws), results, at, upto)
    ensures forall i :: 0 <= i < upto && i !in at ==> Rejected(data, query, Reversed(AllIds(raws)[i]))
  {
    hide Reversed, RawRejected, AllIds;
    forall i | 0 <= i < upto && i !in at
      ensures Rejected(data, query, Reversed(AllIds(raws)[i]))
    {
      ReversedTwice(raws[i].ids);
      RawIsRejected(data, query, raws[i]);
    }
  }

  lemma RawIsRejected(data: Data, query: Query, raw: RawArmorSet)
    requires 1 <= |query.effects| <= EFFECTS && RawRejected(data, query, raw) && HasKeys(data, query, raw.ids, raw.jewelKeys)
    ensures Rejected(data, query, raw.ids)
  {
    hide Reached, RejectedBy;
    assert KeyRejected(data, query, raw.ids, raw.jewelKeys[0]);
    forall jewelKey | Reached(data, query, raw.ids, |query.effects|, jewelKey)
      ensures KeyRejected(data, query, raw.ids, jewelKey)
    {
      var n :| 0 <= n < |raw.jewelKeys| && raw.jewelKeys[n] == jewelKey;
    }
  }

  /** Without a check for negative skills the results are the first sets. */
  lemma BeginsWith(data: Data, query: Query, raws: seq<RawArmorSet>, results: seq<ArmorSet>, at: seq<nat>, upto: nat)
    requires |query.effects| <= EFFECTS && Chosen(data, query, raws, results, at, upto)
    ensures upto == |results| ==> Begins(results, AllIds(raws))
  {
    hide Reversed, RawRejected, AllIds;
    if upto == |results| {
      forall n | 0 <= n < |results|
        ensures at[n] == n
      {
        AtLeast(at, n);
        AtMostAt(at, n, upto);
      }
    }
  }

  lemma {:induction false} AtLeast(at: seq<nat>, n: nat)
    requires n < |at| && forall i, j :: 0 <= i < j < |at| ==> at[i] < at[j]
    ensures at[n] >= n
  {
    if n > 0 {
      AtLeast(at, n - 1);
    }
  }

  lemma {:induction false} AtMostAt(at: seq<nat>, n: nat, upto: nat)
    requires n < |at| <= upto && (forall i, j :: 0 <= i < j < |at| ==> at[i] < at[j]) && forall i :: 0 <= i < |at| ==> at[i] < upto
    ensures at[n] <= upto - (|at| - n)
    decreases |at| - n
  {
    if n + 1 < |at| {
      AtMostAt(at, n + 1, upto);
    }
  }

  lemma SearchableBounds(data: Data, query: Query)
    requires Searchable(data, query)
    ensures Ready(data, query) && NoOverflow(data, query) && 1 <= |query.effects| <= EFFECTS
  {
    hide NoOverflow, SplitKeysFit;
  }

  lemma FilteredAll(roots: seq<TreeRoot>)
    requires AllNonempty(roots)
    ensures forall n :: 0 <= n < |roots| ==> roots[n].jewelKeys != []
  {
  }

  ghost predicate AllResults(data: Data, query: Query, results: seq<ArmorSet>) {
    forall n :: 0 <= n < |results| ==> IsResult(data, query, results[n])
  }

  lemma OneMoreResult(data: Data, query: Query, results: seq<ArmorSet>, more: ArmorSet)
    requires AllResults(data, query, results) && IsResult(data, query, more)
    ensures AllResults(data, query, results + [more])
  {
    hide IsResult;
  }

  lemma ResultsAre(data: Data, query: Query, results: seq<ArmorSet>)
    requires AllResults(data, query, results)
    ensures forall n :: 0 <= n < |results| ==> IsResult(data, query, results[n])
  {
    hide IsResult;
  }

  lemma SourceValid(finalizer: Finalizer)
    requires finalizer.Valid()
    ensures finalizer.source.Valid()
  {
  }

  /** The armors of the unpacked sets, HEAD first. */
  function AllIds(raws: seq<RawArmorSet>): (all: seq<seq<int>>)
    ensures |all| == |raws| && forall i :: 0 <= i < |raws| ==> all[i] == Reversed(raws[i].ids)
  {
    if raws == [] then [] else [Reversed(raws[0].ids)] + AllIds(raws[1..])
  }

  lemma ReversedTwice(t: seq<int>)
    ensures Reversed(Reversed(t)) == t
  {
  }

  lemma {:induction false} CountIds(raws: seq<RawArmorSet>, t: seq<int>)
    ensures multiset(AllIds(raws))[Reversed(t)] == CountRaws(raws, t)
  {
    hide Reversed;
    if raws != [] {
      CountIds(raws[1..], t);
      ReversedTwice(t);
      ReversedTwice(raws[0].ids);
    }
  }

  lemma AllIdsCount(data: Data, query: Query, raws: seq<RawArmorSet>)
    requires 1 <= |query.effects| <= EFFECTS
    requires forall t :: CountRaws(raws, t) == if Found(data, query, t) then 1 else 0
    ensures forall ids :: multiset(AllIds(raws))[ids] == if Found(data, query, Reversed(ids)) then 1 else 0
  {
    hide Found, CountRaws, Reversed, AllIds;
    forall ids
      ensures multiset(AllIds(raws))[ids] == if Found(data, query, Reversed(ids)) then 1 else 0
    {
      CountIds(raws, Reversed(ids));
      ReversedTwice(ids);
    }
  }

  /** Whatever is found has a solution. */
  lemma FoundQualifies(data: Data, query: Query, t: seq<int>)
    requires Searchable(data, query) && Found(data, query, t)
    ensures Qualifies(data, query, Reversed(t))
  {
    hide Ready, NoOverflow, SplitKeysFit, Qualifies, Alive, Defense, Reversed, Completable, PointBounds.IsAllowed;
    SearchableBounds(data, query);
    AliveCompletable(data, query, t);
    QualifiesIff(data, query, t);
  }

  /** Under the conditions of completeness a set is found if and only if it has a solution. */
  lemma FoundIsSolvable(data: Data, query: Query)
    requires Searchable(data, query) && NoSpoilers(data, query) && AlwaysLossless(data, query)
    ensures forall ids :: Found(data, query, Reversed(ids)) <==> Qualifies(data, query, ids)
  {
    hide Ready, NoOverflow, SplitKeysFit, Qualifies, Alive, Defense, Reversed, Completable, PointBounds.IsAllowed, NoSpoilers,
      AlwaysLossless;
    SearchableBounds(data, query);
    forall ids
      ensures Found(data, query, Reversed(ids)) <==> Qualifies(data, query, ids)
    {
      var t := Reversed(ids);
      CompletableIffAlive(data, query, t);
      QualifiesIff(data, query, t);
      ReversedTwice(ids);
    }
  }

  lemma DefendedReady(data: Data, query: Query, raws: seq<RawArmorSet>, min: int)
    requires |query.effects| <= EFFECTS && AllRawKept(data, query, raws) && min == query.defense
    ensures AllHaveArmors(data, raws) && AllReady(data, query, Defended(data, raws, min))
  {
    hide RawKept, Defense;
    DefendedKept(data, query, raws, min);
  }

  /** What is left before the finalizer: the sets that come through and have the defense, each once. */
  lemma SearchExact(pool: Pool, data: Data, query: Query, roots: seq<TreeRoot>)
    requires pool.Valid() && 1 <= |query.effects| <= EFFECTS && IsStage(pool, data, query, roots, |query.effects|)
    requires RootsOk(pool, roots) && AllHaveArmors(data, SetsOfRoots(pool, roots))
    ensures forall t ::
      CountRaws(Defended(data, SetsOfRoots(pool, roots), query.defense), t) == if Found(data, query, t) then 1 else 0
  {
    hide IsStage, CountRaws, CountRoots, SetsOfRoots, Defended, RootsOk, Alive, Defense, AllHaveArmors, Pool.Valid;
    forall t
      ensures CountRaws(Defended(data, SetsOfRoots(pool, roots), query.defense), t) == if Found(data, query, t) then 1 else 0
    {
      DefendedCount(data, SetsOfRoots(pool, roots), query.defense, t);
      UnpackedCount(pool, roots, t);
      StageCounts(pool, data, query, roots, |query.effects|, t);
    }
  }

  /** The unpacked sets have the keys with which they come through. */
  lemma SearchKeys(pool: Pool, data: Data, query: Query, roots: seq<TreeRoot>)
    requires pool.Valid() && 1 <= |query.effects| <= EFFECTS && IsStage(pool, data, query, roots, |query.effects|)
    requires RootsOk(pool, roots) && AllHaveArmors(data, SetsOfRoots(pool, roots))
    ensures KeysAre(data, query, Defended(data, SetsOfRoots(pool, roots), query.defense))
  {
    hide IsStage, SetsOfRoots, Defended, RootsOk, HasKeys, AllHaveArmors, Pool.Valid;
    forall n, t | 0 <= n < |roots| && TreeHas(pool, roots[n].id, t)
      ensures HasKeys(data, query, t, roots[n].jewelKeys)
    {
      RootIs(pool, data, query, roots, |query.effects|, n, t);
      RootHasKeys(pool, data, query, roots, n, t);
    }
    UnpackedKeys(pool, data, query, roots);
    DefendedKeys(data, query, SetsOfRoots(pool, roots), query.defense);
  }

  lemma RootHasKeys(pool: Pool, data: Data, query: Query, roots: seq<TreeRoot>, n: nat, t: seq<int>)
    requires pool.Valid() && 1 <= |query.effects| <= EFFECTS && IsStage(pool, data, query, roots, |query.effects|) && n < |roots|
    requires forall jewelKey :: jewelKey in roots[n].jewelKeys <==> Reached(data, query, t, |query.effects|, jewelKey)
    ensures HasKeys(data, query, t, roots[n].jewelKeys)
  {
    hide AllKept, Carries, Together, CountRoots, Reached, Pool.Valid;
  }

  lemma {:induction false} UnpackedKeys(pool: Pool, data: Data, query: Query, roots: seq<TreeRoot>)
    requires pool.Valid() && 1 <= |query.effects| <= EFFECTS && RootsOk(pool, roots)
    requires forall n, t :: 0 <= n < |roots| && TreeHas(pool, roots[n].id, t) ==> HasKeys(data, query, t, roots[n].jewelKeys)
    ensures KeysAre(data, query, SetsOfRoots(pool, roots))
  {
    hide HasKeys, EnumOr, CountOr, Pool.Valid, HasDepth;
    if roots != [] {
      var root := roots[0];
      FirstRoot(pool, roots);
      assert forall n :: 0 <= n < |roots| - 1 ==> roots[1..][n] == roots[n + 1];
      UnpackedKeys(pool, data, query, roots[1..]);
      var sets := EnumOr(pool, root.id);
      forall i | 0 <= i < |sets|
        ensures HasKeys(data, query, sets[i], root.jewelKeys)
      {
        EnumOrCount(pool, root.id, sets[i]);
        assert sets[i] in multiset(sets);
        TreeHasIs(pool, root.id, sets[i]);
      }
      var first, rest := WithKeys(sets, root.jewelKeys), SetsOfRoots(pool, roots[1..]);
      KeysOfBoth(data, query, first, rest);
    }
  }

  lemma KeysOfBoth(data: Data, query: Query, a: seq<RawArmorSet>, b: seq<RawArmorSet>)
    requires 1 <= |query.effects| <= EFFECTS && KeysAre(data, query, a) && KeysAre(data, query, b)
    ensures KeysAre(data, query, a + b)
  {
    hide HasKeys;
    forall n: nat | n < |a + b|
      ensures HasKeys(data, query, (a + b)[n].ids, (a + b)[n].jewelKeys)
    {
      if n >= |a| {
        assert (a + b)[n] == b[n - |a|];
      }
    }
  }

  lemma {:induction false} DefendedKeys(data: Data, query: Query, raws: seq<RawArmorSet>, min: int)
    requires 1 <= |query.effects| <= EFFECTS && AllHaveArmors(data, raws) && KeysAre(data, query, raws)
    ensures KeysAre(data, query, Defended(data, raws, min))
  {
    hide HasKeys, Defense;
    if raws != [] {
      DefendedKeys(data, query, raws[1..], min);
    }
  }

  ghost predicate IsRootOf(pool: Pool, id: int, root: TreeRoot) {
    pool.IsOr(id) && root == TreeRoot(id, [], Multiplier(pool.ors[id].key))
  }

  lemma ForestAreOrs(pool: Pool, data: Data, query: Query, forest: seq<int>)
    requires pool.Valid() && Ready(data, query) && IsForest(pool, ScopeOf(data, query), forest, 0, PART_NUM)
    ensures forall n :: 0 <= n < |forest| ==> pool.IsOr(forest[n])
  {
    assert forall n :: 0 <= n < |forest| ==> TreeOk(pool, ScopeOf(data, query), forest[n], PART_NUM);
  }

  lemma {:induction false} RootsCount(pool: Pool, forest: seq<int>, roots: seq<TreeRoot>, t: seq<int>)
    requires pool.Valid() && |roots| == |forest| && forall n :: 0 <= n < |forest| ==> IsRootOf(pool, forest[n], roots[n])
    ensures AllOrs(pool, roots) && CountRoots(pool, roots, t) == CountForest(pool, forest, t)
  {
    hide CountOr, Pool.Valid;
    assert forall n :: 0 <= n < |forest| ==> IsRootOf(pool, forest[n], roots[n]) && roots[n].id == forest[n];
    if forest != [] {
      RootsCount(pool, forest[1..], roots[1..], t);
    }
  }

  lemma FoundationDone(pool: Pool, data: Data, query: Query, forest: seq<int>, roots: seq<TreeRoot>)
    requires pool.Valid() && Ready(data, query) && IsForest(pool, ScopeOf(data, query), forest, 0, PART_NUM)
    requires |roots| == |forest| && forall n :: 0 <= n < |forest| ==> IsRootOf(pool, forest[n], roots[n])
    ensures IsFoundation(pool, data, query, roots)
  {
    hide IsForest, Pool.Valid, TreeKeyed, CountForest, CountRoots;
    ReadyBounds(data, query);
    forall n | 0 <= n < |roots|
      ensures RootKept(pool, data, query, roots[n], FoundationCount(query), 0)
    {
      assert IsRootOf(pool, forest[n], roots[n]);
      FoundationKeyed(pool, data, query, forest, n);
    }
    ForestApart(pool, data, query, forest, roots);
    RootsCount(pool, forest, roots, []);
    forall t
      ensures CountRoots(pool, roots, t) == if IsAllowed(data, query, t) then 1 else 0
    {
      RootsCount(pool, forest, roots, t);
      ForestCounts(pool, data, query, forest, t);
    }
  }

  lemma ForestApart(pool: Pool, data: Data, query: Query, forest: seq<int>, roots: seq<TreeRoot>)
    requires pool.Valid() && Ready(data, query) && IsForest(pool, ScopeOf(data, query), forest, 0, PART_NUM)
    requires |roots| == |forest| && forall n :: 0 <= n < |forest| ==> IsRootOf(pool, forest[n], roots[n])
    ensures forall m, n :: 0 <= m < n < |roots| ==> KeyAt(pool, roots[m].id) != KeyAt(pool, roots[n].id)
  {
    hide TreeOk, CountForest, Pool.Valid, Data.Valid, Query.Valid;
    assert forall n :: 0 <= n < |forest| ==> IsRootOf(pool, forest[n], roots[n]) && roots[n].id == forest[n];
  }

  lemma ForestCounts(pool: Pool, data: Data, query: Query, forest: seq<int>, t: seq<int>)
    requires pool.Valid() && Ready(data, query) && IsForest(pool, ScopeOf(data, query), forest, 0, PART_NUM)
    ensures CountForest(pool, forest, t) == if IsAllowed(data, query, t) then 1 else 0
  {
    hide CountForest, TreeOk;
    if |t| == PART_NUM && ScopeOf(data, query).Chosen(t, 0) {
      ChosenIsWhole(data, query, t);
    }
  }
}
