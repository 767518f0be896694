/** The foundation: every armor set of the arsenal, grouped by signature in OR/AND trees. */
module Foundations {
  import opened Signatures
  import opened Datasets
  import opened Keys
  import opened NodePools
  import opened TinyMaps
  import opened AndGroups
  import opened FoundationSteps
  import opened MergeSteps

  const FOUNDATION_NUM := 2

  function FoundationEffects(effects: seq<Effect>): seq<Effect> {
    if |effects| < FOUNDATION_NUM then effects else effects[..FOUNDATION_NUM]
  }

  function ScopeOf(data: Data, query: Query): Scope {
    Scope(data, FoundationEffects(query.effects), query.armorFilter)
  }

  /** One container for every part. */
  type PartMaps = m: seq<Container<Signature>> | |m| == PART_NUM witness [[], [], [], [], [], [], []]

  ghost predicate AllClassified(scope: Scope, maps: PartMaps, n: nat)
    requires scope.Valid() && n <= |scope.data.armors|
  {
    forall part :: 0 <= part < PART_NUM ==> Classified(scope, maps[part], part, n)
  }

  ghost predicate PartForests(pool: Pool, scope: Scope, forests: seq<seq<int>>)
    requires pool.Valid() && scope.Valid()
  {
    forall part :: 0 <= part < |forests| ==> IsForest(pool, scope, forests[part], part, 1)
  }

  /** What the filter admits, from the fields of the armor. */
  lemma ValidateIff(filter: ArmorFilter, armor: Armor, id: int)
    ensures filter.Validate(armor, id) <==>
      && id !in filter.blacklist
      && armor.weaponType in {filter.weaponType, 2} && armor.gender in {filter.gender, 2}
      && (armor.part == 4 ==> armor.slots == filter.weaponSlots)
      && (armor.part != 4 && armor.part != 5 ==>
            && filter.minRare <= armor.rare <= filter.maxRare && (filter.whitelist == {} || id in filter.whitelist))
  {
  }

  /** The forest of one part lists exactly the admitted armors of the part. */
  lemma PartListed(pool: Pool, data: Data, query: Query, forest: seq<int>, part: nat, id: int)
    requires pool.Valid() && ScopeOf(data, query).Valid() && IsForest(pool, ScopeOf(data, query), forest, part, 1)
    ensures CountForest(pool, forest, [id]) ==
      if && 0 <= id < |data.armors| && data.armors[id].part == part
         && id !in query.armorFilter.blacklist
         && data.armors[id].weaponType in {query.armorFilter.weaponType, 2}
         && data.armors[id].gender in {query.armorFilter.gender, 2}
         && (part == 4 ==> data.armors[id].slots == query.armorFilter.weaponSlots)
         && (part != 4 && part != 5 ==>
               && query.armorFilter.minRare <= data.armors[id].rare <= query.armorFilter.maxRare
               && (query.armorFilter.whitelist == {} || id in query.armorFilter.whitelist))
      then 1 else 0
  {
    hide CountForest, ArmorFilter.Validate, Scope.KeyOf, HasDepth, TreeOk;
    var scope := ScopeOf(data, query);
    if scope.IsChoice(id, part) {
      assert forall i :: 0 <= i < |[id]| ==> scope.IsChoice([id][i], part + |[id]| - 1 - i);
    } else {
      assert !scope.IsChoice([id][0], part + |[id]| - 1 - 0);
    }
    if data.IsArmor(id) {
      ValidateIff(query.armorFilter, data.armors[id], id);
    }
  }

  class FoundationBuilder {
    const data: Data
    const pool: NodePool

    constructor (data: Data, pool: NodePool)
      ensures this.data == data && this.pool == pool
    {
      this.data := data;
      this.pool := pool;
    }

    /** The armors that the filter admits, by part and signature. */
    method CollectClasses(query: Query) returns (maps: PartMaps)
      requires data.Valid() && query.Valid()
      ensures AllClassified(ScopeOf(data, query), maps, |data.armors|)
    {
      hide Classified, ArmorSignature;
      var scope := ScopeOf(data, query);
      maps := [[], [], [], [], [], [], []];
      forall part | 0 <= part < PART_NUM
        ensures Classified(scope, maps[part], part, 0)
      {
        ClassifiedNone(scope, part);
      }
      for id := 0 to |data.armors|
        invariant AllClassified(scope, maps, id)
      {
        ghost var before := maps;
        var armor := data.armors[id];
        assert data.IsArmor(id);
        if query.armorFilter.Validate(armor, id) {
          var key := ArmorSignature(armor, scope.effects);
          maps := maps[armor.part := Pushed(maps[armor.part], key, id)];
        }
        forall part | 0 <= part < PART_NUM
          ensures Classified(scope, maps[part], part, id + 1)
        {
          if scope.IsChoice(id, part) {
            ClassifiedPushed(scope, before[part], part, id);
          } else {
            ClassifiedSkip(scope, before[part], part, id);
          }
        }
      }
    }

    method ClassifyArmors(query: Query) returns (partForests: seq<seq<int>>)
      requires data.Valid() && query.Valid() && pool.State().Valid()
      modifies pool
      ensures pool.State().Valid() && |partForests| == PART_NUM
      ensures PartForests(pool.State(), ScopeOf(data, query), partForests)
      ensures forall part, id :: 0 <= part < 7 ==>
        CountForest(pool.State(), partForests[part], [id]) ==
        if && 0 <= id < |data.armors| && data.armors[id].part == part
           && id !in query.armorFilter.blacklist
           && data.armors[id].weaponType in {query.armorFilter.weaponType, 2}
           && data.armors[id].gender in {query.armorFilter.gender, 2}
           && (part == 4 ==> data.armors[id].slots == query.armorFilter.weaponSlots)
           && (part != 4 && part != 5 ==>
                 && query.armorFilter.minRare <= data.armors[id].rare <= query.armorFilter.maxRare
                 && (query.armorFilter.whitelist == {} || id in query.armorFilter.whitelist))
        then 1 else 0
    {
      hide Classified, IsForest, CountForest;
      ghost var scope := ScopeOf(data, query);
      var maps := CollectClasses(query);
      partForests := [];
      for part := HEAD to PART_NUM
        invariant pool.State().Valid() && |partForests| == part
        invariant PartForests(pool.State(), scope, partForests)
      {
        ghost var before := pool.State();
        var forest := MakeClasses(maps[part], part, scope);
        forall p | 0 <= p < part
          ensures IsForest(pool.State(), scope, partForests[p], p, 1)
        {
          ForestStable(before, pool.State(), scope, partForests[p], p, 1);
        }
        partForests := partForests + [forest];
      }
      forall part, id | 0 <= part < 7 {
        PartListed(pool.State(), data, query, partForests[part], part, id);
      }
    }

    method MakeClasses(c: Container<Signature>, ghost part: int, ghost scope: Scope) returns (forest: seq<int>)
      requires pool.State().Valid() && scope.Valid() && Classified(scope, c, part, |scope.data.armors|)
      modifies pool
      ensures pool.State().Valid() && pool.State().Extends(old(pool.State()))
      ensures IsForest(pool.State(), scope, forest, part, 1)
    {
      hide Total, ArmorSignature, ClassTrees, IsForest;
      forest := [];
      NoClassTrees(pool.State(), scope, c);
      for n := 0 to |c|
        invariant pool.State().Valid() && pool.State().Extends(old(pool.State()))
        invariant ClassTrees(pool.State(), scope, c, n, forest)
      {
        ghost var before := pool.State();
        var id := pool.MakeOR(ARMORS, c[n].0, c[n].1);
        ClassTree(before, pool.State(), scope, c, part, n, forest);
        forest := forest + [id];
      }
      ClassForest(pool.State(), scope, c, part, forest);
    }

    /** All pairs of a left tree and a right tree, by merged signature. */
    method MergeForests(leftOrs: seq<int>, rightOrs: seq<int>, isBody: bool, ghost part: nat, ghost scope: Scope)
      returns (forest: seq<int>)
      requires pool.State().Valid() && scope.Valid() && 0 < part && isBody == (part == BODY)
      requires IsForest(pool.State(), scope, leftOrs, part, 1) && IsForest(pool.State(), scope, rightOrs, 0, part)
      modifies pool
      ensures pool.State().Valid() && pool.State().Extends(old(pool.State()))
      ensures IsForest(pool.State(), scope, forest, 0, part + 1)
    {
      hide CountEntries, CountOr, CountForest, ProductCount, Keyed, EntriesAnds, IsForest;
      ghost var older := pool.State();
      var andMap: Container<Signature> := [];
      NothingMerged(older, scope, leftOrs, rightOrs, part + 1);
      for i := 0 to |leftOrs|
        invariant pool.State().Valid() && pool.State().Extends(older) && pool.ors == older.ors
        invariant Keyed(pool.State(), scope, andMap, part + 1) && EntriesAnds(pool.State(), andMap)
        invariant forall t ::
          CountEntries(pool.State(), andMap, t) == ProductCount(older, leftOrs[..i], rightOrs, t)
      {
        ghost var before, c := pool.State(), andMap;
        ForestTree(older, pool.State(), scope, leftOrs, i, part);
        ForestStable(older, pool.State(), scope, rightOrs, 0, part);
        andMap := MergeRow(leftOrs[i], rightOrs, isBody, andMap, part, scope);
        RowMerged(older, before, pool.State(), scope, leftOrs, i, rightOrs, part, c, andMap);
      }
      assert leftOrs[..|leftOrs|] == leftOrs;
      ghost var pool1 := pool.State();
      forest := MakeForest(andMap, part + 1, scope);
      Merged(older, pool1, pool.State(), scope, leftOrs, rightOrs, part, andMap, forest);
    }

    /** The pairs of one left tree. */
    method MergeRow(i: int, rightOrs: seq<int>, isBody: bool, c: Container<Signature>, ghost part: nat, ghost scope: Scope)
      returns (andMap: Container<Signature>)
      requires pool.State().Valid() && scope.Valid() && 0 < part && isBody == (part == BODY)
      requires TreeOk(pool.State(), scope, i, 1)
      requires forall a :: CountOr(pool.State(), i, [a]) > 0 ==> scope.IsChoice(a, part)
      requires IsForest(pool.State(), scope, rightOrs, 0, part)
      requires Keyed(pool.State(), scope, c, part + 1) && EntriesAnds(pool.State(), c)
      modifies pool
      ensures pool.State().Valid() && pool.State().Extends(old(pool.State())) && pool.ors == old(pool.ors)
      ensures Keyed(pool.State(), scope, andMap, part + 1) && EntriesAnds(pool.State(), andMap)
      ensures forall t ::
        CountEntries(pool.State(), andMap, t) ==
        CountEntries(old(pool.State()), c, t) + RowCount(old(pool.State()), i, rightOrs, t)
    {
      hide CountEntries, CountOr, CountAnd, Keyed, EntriesAnds, IsForest, RowCount, BodyRefactor, Add;
      ghost var older := pool.State();
      andMap := c;
      NothingInRow(older, i, rightOrs);
      for j := 0 to |rightOrs|
        invariant pool.State().Valid() && pool.State().Extends(older) && pool.ors == older.ors
        invariant Keyed(pool.State(), scope, andMap, part + 1) && EntriesAnds(pool.State(), andMap)
        invariant forall t ::
          CountEntries(pool.State(), andMap, t) ==
          CountEntries(older, c, t) + RowCount(older, i, rightOrs[..j], t)
      {
        ghost var before, c0 := pool.State(), andMap;
        RightTree(older, scope, rightOrs, j, part);
        TagOfOne(older, i);
        var key := MergedKey(pool.ors[i].key, pool.ors[rightOrs[j]].key, isBody);
        var d := pool.MakeAnd(i, rightOrs[j]);
        PairMerged(older, before, pool.State(), scope, i, rightOrs, j, part, c0, d);
        andMap := Pushed(andMap, key, d);
      }
      assert rightOrs[..|rightOrs|] == rightOrs;
    }

    method MakeForest(c: Container<Signature>, ghost depth: nat, ghost scope: Scope) returns (forest: seq<int>)
      requires pool.State().Valid() && scope.Valid() && depth > 1
      requires Keyed(pool.State(), scope, c, depth) && EntriesAnds(pool.State(), c)
      modifies pool
      ensures pool.State().Valid() && pool.State().Extends(old(pool.State()))
      ensures EntriesAnds(old(pool.State()), c[..|c|])
      ensures GroupTrees(old(pool.State()), pool.State(), scope, c, |c|, depth, forest)
      ensures DistinctKeys(c)
    {
      hide GroupTrees, EntriesAnds;
      ghost var pool1 := pool.State();
      forest := [];
      NoGroupTrees(pool1, scope, c, depth);
      for n := 0 to |c|
        invariant pool.State().Valid() && pool.State().Extends(pool1) && EntriesAnds(pool1, c[..n])
        invariant GroupTrees(pool1, pool.State(), scope, c, n, depth, forest)
      {
        ghost var before := pool.State();
        GroupNodeOk(pool1, before, scope, c, n, depth);
        var id := pool.MakeOR(ANDS, c[n].0, c[n].1);
        GroupTree(pool1, before, pool.State(), scope, c, n, depth, forest);
        forest := forest + [id];
      }
    }

    /** Every choice of one allowed armor per part stands in exactly one tree, exactly once. */
    method Foundation(query: Query) returns (forest: seq<int>)
      requires data.Valid() && query.Valid() && pool.State().Valid()
      modifies pool
      ensures pool.State().Valid()
      ensures IsForest(pool.State(), ScopeOf(data, query), forest, 0, PART_NUM)
    {
      hide IsForest;
      ghost var scope := ScopeOf(data, query);
      var partForests := ClassifyArmors(query);
      var current := [];
      for part := HEAD to PART_NUM
        invariant pool.State().Valid() && PartForests(pool.State(), scope, partForests)
        invariant part > HEAD ==> IsForest(pool.State(), scope, current, 0, part)
      {
        ghost var before := pool.State();
        if HEAD == part {
          current := partForests[part];
        } else {
          current := MergeForests(partForests[part], current, part == BODY, part, scope);
          forall p | 0 <= p < PART_NUM
            ensures IsForest(pool.State(), scope, partForests[p], p, 1)
          {
            ForestStable(before, pool.State(), scope, partForests[p], p, 1);
          }
        }
      }
      forest := current;
    }
  }
}
