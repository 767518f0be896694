/** A search that avoids negative skills and rejects armors that have a solution without them. */
module MissedClean {
  import opened Signatures
  import opened Datasets
  import opened Keys
  import opened SetTotals
  import opened Stats
  import opened JewelPicks
  import opened JewelSolvers
  import opened JewelAssigners
  import opened Placements
  import opened Candidates
  import opened PointBounds
  import opened FinalSteps
  import opened Solutions
  import opened CleanSolutions
  import opened Reaching
  import opened Completeness
  import opened InJewels
  import opened Searches
  import opened SmallItems
  import opened LostSets

  /** The body piece has what is asked for, and minus ten points in a skill whose system has a negative skill there; a jewel, which does
      not help with what is asked for, would bring one back. */
  function TurnedBody(): (body: seq<Effect>)
    ensures |body| == 2
  {
    [Effect(1, 1), Effect(3, -10)]
  }

  function TurnedData(): Data {
    Data(Pieces(1, 0, TurnedBody()), [Jewel(1, [Effect(3, 1)])], map[3 := [10, 15, -10]])
  }

  function AvoidQuery(): Query {
    Query([Effect(1, 1)], 0, 1, true, ANY_ARMOR, JewelFilter({}))
  }

  /** Whatever jewels are chosen for a key of the set, and wherever they are placed, a negative skill is active. */
  ghost predicate AlwaysNegative(data: Data, query: Query, t: seq<int>)
    requires |query.effects| <= EFFECTS && IsWholeArmors(data, t)
  {
    forall table, jewelKey, ids, bodyIds, jewels :: MayPlace(table, data, query, t, jewelKey, ids, bodyIds, jewels) ==>
      SomeNegative(data, ArmorSet(Reversed(t), jewels))
  }

  lemma TurnedFacts(data: Data, query: Query)
    requires data == TurnedData() && query == AvoidQuery()
    ensures Ready(data, query)
    ensures PointsOf(TurnedBody(), 1) == 1 && PointsOf(TurnedBody(), 3) == -10
    ensures PointsOf(data.jewels[0].effects, 1) == 0 && PointsOf(data.jewels[0].effects, 3) == 1
  {
    assert TurnedBody()[1..] == [Effect(3, -10)] && TurnedBody()[1..][1..] == [];
    assert data.jewels[0].effects[1..] == [];
  }

  lemma NoneUsable(data: Data, query: Query, id: int)
    requires data == TurnedData() && query == AvoidQuery()
    ensures !Usable(data, query, id)
  {
  }

  lemma TurnedSmall(data: Data, query: Query)
    requires data == TurnedData() && query == AvoidQuery() && PointsOf(TurnedBody(), 1) == 1
    ensures ItemsAreSmall(data, query)
  {
    hide Usable, PointsOf, TurnedBody;
    NothingScored(1);
    forall id | Usable(data, query, id)
      ensures false
    {
      NoneUsable(data, query, id);
    }
  }

  /** Without jewels the set comes through. */
  lemma TurnedFound(data: Data, query: Query)
    requires data == TurnedData() && query == AvoidQuery() && Ready(data, query) && NoOverflow(data, query)
    requires PointsOf(TurnedBody(), 1) == 1
    ensures Found(data, query, Whole())
  {
    hide Pieces, Down, PointsOf, TurnedBody, NoOverflow, Data.Valid, Query.Valid, FreeSlots, SetPoints, Multiplied, BodySpace,
      PointBounds.IsAllowed, Alive, SlotsOf, Defense;
    var t, a := Whole(), Load([], []);
    PiecesAllowed(data, query, 1, 0, TurnedBody());
    EmptyFits(data, query, TurnedBody(), t, 1);
    PiecesScore(data, 1, 0, TurnedBody(), t, 1);
    PieceDefense(data, 1, 0, TurnedBody(), PART_NUM);
    assert Comes(data, query, t, 1, a);
    AliveInJewels(data, query, t, 1);
  }

  /** No jewel is ever chosen, so the points stay at minus ten. */
  lemma TurnedRejected(data: Data, query: Query)
    requires data == TurnedData() && query == AvoidQuery() && PointsOf(TurnedBody(), 3) == -10
    ensures IsWholeArmors(data, Whole()) && AlwaysNegative(data, query, Whole())
  {
    hide Pieces, Down, PointsOf, TurnedBody, SomeNegative, Reversed, TableOf, Solves, IsPlacement, NoPartOverfilled;
    PiecesAllowed(data, query, 1, 0, TurnedBody());
    forall table, jewelKey, ids, bodyIds, jewels | MayPlace(table, data, query, Whole(), jewelKey, ids, bodyIds, jewels)
      ensures SomeNegative(data, ArmorSet(Reversed(Whole()), jewels))
    {
      TurnedPlaced(table, data, query, jewelKey, ids, bodyIds, jewels);
    }
  }

  lemma TurnedPlaced(table: Table, data: Data, query: Query, jewelKey: Signature, ids: seq<int>, bodyIds: seq<int>,
                     jewels: seq<seq<int>>)
    requires data == TurnedData() && query == AvoidQuery() && PointsOf(TurnedBody(), 3) == -10 && IsWholeArmors(data, Whole())
    requires MayPlace(table, data, query, Whole(), jewelKey, ids, bodyIds, jewels)
    ensures ArmorSet(Reversed(Whole()), jewels).Valid(data) && SomeNegative(data, ArmorSet(Reversed(Whole()), jewels))
  {
    hide Pieces, Down, PointsOf, TurnedBody, Reversed, Stat, SetPoints, TableOf, NoPartOverfilled, PointBounds.IsAllowed, JewelsFit,
      JewelPoints, IsPlacement, InTable;
    var t := Whole();
    var armors := ArmorSet(Reversed(t), jewels);
    NoneInTable(table, data, query, ids);
    NoneInTable(table, data, query, bodyIds);
    PiecesAllowed(data, query, 1, 0, TurnedBody());
    EmptyFits(data, query, TurnedBody(), t, 3);
    PiecesScore(data, 1, 0, TurnedBody(), t, 3);
    PlacedPoints(data, query, t, armors, [], [], 3);
    assert data.skills[3][2] == -10;
    assert Activates(data, 3, Stat(data, armors, 3));
  }

  lemma EmptyFits(data: Data, query: Query, body: seq<Effect>, t: seq<int>, skill: int)
    requires data.armors == Pieces(1, 0, body) && |body| != 1 && IsWholeArmors(data, t) && t == Whole()
    ensures JewelsFit(data, query, t, [], []) && JewelPoints(data, [], [], Multiplied(data, t), skill) == 0
  {
    hide Pieces, Down, PointsOf, FreeSlots, BodySpace, Multiplied, SlotsOf;
    PiecesFree(data, 1, 0, body, t);
    ScaledAdds(0, 0, 1);
  }

  lemma NoneInTable(table: Table, data: Data, query: Query, ids: seq<int>)
    requires data == TurnedData() && query == AvoidQuery() && TableOf(table, data, query) && InTable(table, ids)
    ensures ids == []
  {
    hide Usable, Table.Valid;
    if ids != [] {
      var size :| 1 <= size <= 3 && ids[0] in table.ids[size];
      NoneUsable(data, query, ids[0]);
    }
  }

  /** The jewel goes into the helmet. */
  function InHelmet(): (jewels: seq<seq<int>>)
    ensures |jewels| == PART_NUM && forall p :: 0 <= p < PART_NUM ==> jewels[p] == if p == 0 then [0] else []
  {
    seq(PART_NUM, p => if p == 0 then [0] else [])
  }

  lemma {:induction false} HelmetBelow(n: nat)
    requires 1 <= n <= PART_NUM
    ensures JewelsBelow(InHelmet(), n) == [0]
  {
    hide InHelmet;
    if n > 1 {
      HelmetBelow(n - 1);
    } else {
      assert JewelsBelow(InHelmet(), 0) == [];
    }
  }

  lemma HelmetValid(data: Data, body: seq<Effect>, armors: ArmorSet)
    requires data.armors == Pieces(1, 0, body) && data.IsJewel(0) && data.jewels[0].slots == 1 && |body| != 1
    requires armors == ArmorSet(Reversed(Whole()), InHelmet())
    ensures armors.Valid(data) && forall p :: 0 <= p < PART_NUM ==> armors.ids[p] == p
    ensures NoPartOverfilled(data, armors)
  {
    hide Down, Reversed, InHelmet, Pieces;
    forall p | 0 <= p < PART_NUM
      ensures armors.ids[p] == p && data.IsArmor(p) && data.AreJewels(armors.jewels[p])
      ensures Taken(data, armors.jewels[p]) <= data.armors[p].slots
    {
      TakenInHelmet(data, armors.jewels[p], if p == 0 then 1 else 0);
      PieceAt(data, body, p);
    }
  }

  lemma TakenInHelmet(data: Data, ids: seq<int>, count: int)
    requires data.IsJewel(0) && data.jewels[0].slots == 1 && ids == if count == 1 then [0] else []
    ensures data.AreJewels(ids) && Taken(data, ids) == if count == 1 then 1 else 0
  {
    assert [0][1..] == [];
  }

  lemma PieceAt(data: Data, body: seq<Effect>, p: nat)
    requires data.armors == Pieces(1, 0, body) && p < PART_NUM
    ensures data.IsArmor(p) && data.armors[p].part == p && data.armors[p].slots == if p == 0 then 1 else 0
    ensures ANY_ARMOR.Validate(data.armors[p], p)
  {
  }

  lemma TurnedSet(data: Data, query: Query, armors: ArmorSet)
    requires data == TurnedData() && query == AvoidQuery() && armors == ArmorSet(Reversed(Whole()), InHelmet())
    ensures armors.Valid(data) && NoPartOverfilled(data, armors) && Defense(data, armors.ids) >= query.defense
    ensures forall p :: 0 <= p < PART_NUM ==>
      PartAllowed(data, query, armors.ids[p], p) && AllAllowedJewels(data, query, armors.jewels[p])
  {
    hide TurnedBody, Pieces, Down, Reversed, InHelmet, NoPartOverfilled, Defense, ANY_ARMOR, ArmorFilter.Validate;
    HelmetValid(data, TurnedBody(), armors);
    forall p | 0 <= p < PART_NUM
      ensures PartAllowed(data, query, armors.ids[p], p)
    {
      PieceAt(data, TurnedBody(), p);
    }
    PieceDefense(data, 1, 0, TurnedBody(), PART_NUM);
    SameArmors(data, Whole(), 0);
  }

  lemma TurnedStat(data: Data, query: Query, armors: ArmorSet, skill: int)
    requires data == TurnedData() && query == AvoidQuery() && armors.Valid(data)
    requires armors == ArmorSet(Reversed(Whole()), InHelmet())
    ensures Stat(data, armors, skill) == PointsOf(TurnedBody(), skill) + PointsOf(data.jewels[0].effects, skill)
  {
    hide PointsOf, TurnedBody, Stat, Pieces, Down, SetPoints, Multiplied, Reversed, SkillPoints, InHelmet, JewelsBelow, FreeSlots, BodySpace,
      SlotsOf, PointBounds.IsAllowed;
    var t := Whole();
    PiecesAllowed(data, query, 1, 0, TurnedBody());
    PiecesFree(data, 1, 0, TurnedBody(), t);
    PiecesScore(data, 1, 0, TurnedBody(), t, skill);
    StatOfSet(data, t, armors, skill);
    HelmetBelow(BODY);
    OneAlone(data, 0, skill);
    NoSkillPoints(data, skill);
    ScaledAdds(0, 0, 1);
  }

  /** With the jewel there, nine points are missing, one fewer than the negative skill needs. */
  lemma TurnedClean(data: Data, query: Query)
    requires data == TurnedData() && query == AvoidQuery()
    requires PointsOf(TurnedBody(), 1) == 1 && PointsOf(TurnedBody(), 3) == -10
    requires PointsOf(data.jewels[0].effects, 1) == 0 && PointsOf(data.jewels[0].effects, 3) == 1
    ensures CleanQualifies(data, query, Reversed(Whole()))
  {
    hide PointsOf, TurnedBody, Stat, Pieces, Down, Reversed, InHelmet, NoPartOverfilled, Defense, PartAllowed, AllAllowedJewels;
    var jewels := InHelmet();
    var armors := ArmorSet(Reversed(Whole()), jewels);
    TurnedSet(data, query, armors);
    TurnedStat(data, query, armors, 1);
    TurnedStat(data, query, armors, 3);
    assert IsSolutionSet(data, query, armors);
    assert !SomeNegative(data, armors);
  }

  /** The armors come through, and have a solution free of negative skills; but the search rejects them, whichever jewels it
      chooses. */
  lemma CleanMissed(data: Data, query: Query)
    requires data == TurnedData() && query == AvoidQuery()
    ensures Searchable(data, query) && Found(data, query, Whole()) && CleanQualifies(data, query, Reversed(Whole()))
    ensures IsWholeArmors(data, Whole()) && AlwaysNegative(data, query, Whole())
  {
    hide Searchable, Found, CleanQualifies, AlwaysNegative, Pieces, Down, PointsOf, TurnedBody, ItemsAreSmall, Reversed;
    TurnedFacts(data, query);
    TurnedSmall(data, query);
    SmallItemsSearchable(data, query);
    SearchableBounds(data, query);
    TurnedFound(data, query);
    TurnedRejected(data, query);
    TurnedClean(data, query);
  }
}
