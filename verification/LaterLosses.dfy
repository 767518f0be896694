/** Searches for three and for four effects that miss the armors of a solution. */
module LaterLosses {
  import opened Datasets
  import opened Keys
  import opened SetTotals
  import opened Placements
  import opened Candidates
  import opened PointBounds
  import opened Solutions
  import opened Reaching
  import opened Searches
  import opened SmallItems
  import opened LostSets
  import opened Refusals

  /** One point in each of the first effects. */
  function OneOfEach(count: nat): Query {
    Query(seq(count, i => Effect(i + 1, 1)), 0, 1, false, ANY_ARMOR, JewelFilter({}))
  }

  /** Besides the points in the given skill, a jewel that takes one point from the third. */
  function Taker(skill: int): Jewel {
    Jewel(1, [Effect(skill, 1), Effect(3, -1)])
  }

  /** A 1-slot for one kind of jewel. */
  function TakerData(body: seq<Effect>, skill: int): Data {
    Data(Pieces(1, 0, body), [Taker(skill)], map[])
  }

  /** The points of the body piece and of the jewel that stand in the way of nothing but the search. */
  ghost predicate TakerFits(data: Data, query: Query, body: seq<Effect>, skill: int, count: nat) {
    && data == TakerData(body, skill) && query == OneOfEach(count) && 3 <= count <= 4 && 1 <= skill <= count && skill != 3
    && DistinctIds(body) && |body| != 1
    && forall e: nat :: e < count ==> BodyHas(body, skill, e)
  }

  predicate BodyHas(body: seq<Effect>, skill: int, e: nat) {
    PointsOf(body, e + 1) == if e == 2 then 2 else if e + 1 == skill then 0 else 1
  }

  lemma PointsCons(first: Effect, rest: seq<Effect>, skill: int)
    ensures PointsOf([first] + rest, skill) == (if first.id == skill then first.points else 0) + PointsOf(rest, skill)
  {
    assert ([first] + rest)[1..] == rest;
  }

  lemma TakerPoints(skill: int, e: nat)
    requires skill != 3
    ensures PointsOf(Taker(skill).effects, e + 1) == if e == 2 then -1 else if e + 1 == skill then 1 else 0
  {
    PointsCons(Effect(skill, 1), [Effect(3, -1)], e + 1);
    PointsCons(Effect(3, -1), [], e + 1);
    NothingScored(e + 1);
    assert Taker(skill).effects == [Effect(skill, 1)] + [Effect(3, -1)] && [Effect(3, -1)] == [Effect(3, -1)] + [];
  }

  lemma TakerReady(data: Data, query: Query, body: seq<Effect>, skill: int, count: nat)
    requires TakerFits(data, query, body, skill, count)
    ensures Ready(data, query) && |query.effects| == count
    ensures forall e :: 0 <= e < count ==> query.effects[e] == Effect(e + 1, 1)
  {
    hide PointsOf;
  }

  lemma TakerUsable(data: Data, query: Query, body: seq<Effect>, skill: int, count: nat)
    requires TakerFits(data, query, body, skill, count) && |query.effects| == count
    ensures Usable(data, query, 0) && data.AreJewels([0])
  {
    hide PointsOf, Pieces;
    assert SkillIds(query.effects)[skill - 1] == skill;
    assert data.jewels[0].effects[0] == Effect(skill, 1);
  }

  lemma TakerSmall(data: Data, query: Query, body: seq<Effect>, skill: int, count: nat)
    requires TakerFits(data, query, body, skill, count) && |query.effects| == count
    ensures ItemsAreSmall(data, query)
  {
    hide JewelValid, PointsOf;
    NothingScored(0);
    forall id, e | data.IsArmor(id) && 0 <= e < |query.effects|
      ensures SmallArmor(PointsOf(data.armors[id].effects, query.effects[e].id), e)
    {
      NothingScored(e + 1);
      assert BodyHas(body, skill, e);
    }
    forall id, e | Usable(data, query, id) && 0 <= e < |query.effects|
      ensures SmallJewel(PointsOf(data.jewels[id].effects, query.effects[e].id), data.jewels[id].slots)
    {
      TakerPoints(skill, e);
    }
  }

  /** The jewel brings what the body piece lacks. */
  lemma TakerSolves(data: Data, query: Query, body: seq<Effect>, skill: int, count: nat)
    requires TakerFits(data, query, body, skill, count)
    ensures Searchable(data, query) && Qualifies(data, query, Reversed(Whole()))
  {
    hide Usable, NoOverflow, SplitKeysFit, PointsOf, Pieces, Data.Valid, Query.Valid, Whole, Qualifies, ItemsAreSmall;
    TakerReady(data, query, body, skill, count);
    TakerUsable(data, query, body, skill, count);
    TakerSmall(data, query, body, skill, count);
    SmallItemsSearchable(data, query);
    hide SizesOf, SkillPoints;
    OneAlone(data, 0, 1);
    forall e | 0 <= e < |query.effects|
      ensures PointsOf(body, query.effects[e].id) + SkillPoints(data, [0], query.effects[e].id) >= query.effects[e].points
    {
      TakerPoints(skill, e);
      OneAlone(data, 0, query.effects[e].id);
      assert BodyHas(body, skill, e);
    }
    PiecesQualify(data, query, 1, 0, body, [0]);
  }

  /** Every usable jewel takes a point from the third effect. */
  lemma AllTakers(data: Data, query: Query, body: seq<Effect>, skill: int, count: nat)
    requires TakerFits(data, query, body, skill, count) && |query.effects| == count
    ensures UsableTake(data, query, 2) && HelpTakes(data, query, 0, 2)
  {
    hide JewelValid, PointsOf, Pieces;
    assert query.effects[2].id == 3;
    TakerPoints(skill, 2);
  }

  // ---------- Points that the keys do not cover yet ----------

  function SparedBody(): seq<Effect> { [Effect(2, 1), Effect(3, 2)] }

  lemma SparedPoints(e: nat)
    ensures e < 3 ==> BodyHas(SparedBody(), 1, e)
  {
    PointsCons(Effect(2, 1), [Effect(3, 2)], e + 1);
    PointsCons(Effect(3, 2), [], e + 1);
    NothingScored(e + 1);
    assert SparedBody() == [Effect(2, 1)] + [Effect(3, 2)] && [Effect(3, 2)] == [Effect(3, 2)] + [];
  }

  /** The jewel for the first effect takes a point that the body piece can spare; the first stage, whose keys do not hold the
      third effect, refuses it. */
  lemma SparedLost(data: Data, query: Query)
    requires data == TakerData(SparedBody(), 1) && query == OneOfEach(3)
    ensures Searchable(data, query) && Qualifies(data, query, Reversed(Whole()))
    ensures !Alive(data, query, Whole(), 1) && !Found(data, query, Whole())
  {
    hide Searchable, Qualifies, Found, Alive, Pieces, Down, PointsOf, HelpTakes, UsableTake, NoOverflow, SplitKeysFit;
    forall e: nat | e < 3
      ensures BodyHas(SparedBody(), 1, e)
    {
      SparedPoints(e);
    }
    TakerSolves(data, query, SparedBody(), 1, 3);
    SearchableBounds(data, query);
    TakerReady(data, query, SparedBody(), 1, 3);
    AllTakers(data, query, SparedBody(), 1, 3);
    PiecesAllowed(data, query, 1, 0, SparedBody());
    PiecesScore(data, 1, 0, SparedBody(), Whole(), 1);
    assert BodyHas(SparedBody(), 1, 0);
    TakersRefused(data, query, Whole(), 2);
    NeverFound(data, query, Whole(), 1);
  }

  // ---------- Effects that are tried out alone ----------

  function TriedBody(): seq<Effect> { [Effect(1, 1), Effect(2, 1), Effect(3, 2)] }

  lemma TriedPoints(e: nat)
    ensures e < 4 ==> BodyHas(TriedBody(), 4, e)
  {
    PointsCons(Effect(1, 1), SparedBody(), e + 1);
    PointsCons(Effect(2, 1), [Effect(3, 2)], e + 1);
    PointsCons(Effect(3, 2), [], e + 1);
    NothingScored(e + 1);
    assert TriedBody() == [Effect(1, 1)] + SparedBody() && SparedBody() == [Effect(2, 1)] + [Effect(3, 2)];
    assert [Effect(3, 2)] == [Effect(3, 2)] + [];
  }

  /** No other armors are allowed. */
  lemma OnlyWhole(data: Data, query: Query, a: int, b: int, body: seq<Effect>, t: seq<int>)
    requires data.armors == Pieces(a, b, body) && IsAllowed(data, query, t)
    ensures t == Whole()
  {
    hide ANY_ARMOR;
  }

  lemma TriedLacks(data: Data, query: Query)
    requires data == TakerData(TriedBody(), 4) && query == OneOfEach(4) && |query.effects| == 4
    ensures ArmorsLack(data, query, 3)
  {
    hide SetPoints, PointsOf, Pieces, Down, PointBounds.IsAllowed;
    TriedPoints(3);
    forall t | IsAllowed(data, query, t)
      ensures Lacks(data, query, t, 3)
    {
      OnlyWhole(data, query, 1, 0, TriedBody(), t);
      AllowedArmors(data, query, t);
      PiecesScore(data, 1, 0, TriedBody(), t, 4);
    }
  }

  /** The jewel for the fourth effect takes a point that the body piece can spare; before the trees are split by the third effect,
      whose points the keys do not hold yet, the fourth is tried out, and the set refused. */
  lemma TriedLost(data: Data, query: Query)
    requires data == TakerData(TriedBody(), 4) && query == OneOfEach(4)
    ensures Searchable(data, query) && Qualifies(data, query, Reversed(Whole()))
    ensures !Alive(data, query, Whole(), 3) && !Found(data, query, Whole())
  {
    hide Searchable, Qualifies, Found, Alive, Pieces, Down, PointsOf, HelpTakes, UsableTake, NoOverflow, SplitKeysFit, ArmorsLack;
    forall e: nat | e < 4
      ensures BodyHas(TriedBody(), 4, e)
    {
      TriedPoints(e);
    }
    TakerSolves(data, query, TriedBody(), 4, 4);
    SearchableBounds(data, query);
    TakerReady(data, query, TriedBody(), 4, 4);
    AllTakers(data, query, TriedBody(), 4, 4);
    TriedLacks(data, query);
    BetweenRefused(data, query, Whole(), 2, 3, 2);
    NeverFound(data, query, Whole(), 3);
  }
}
