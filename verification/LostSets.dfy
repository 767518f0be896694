/** Two searches for two effects that miss the armors of a solution. */
module LostSets {
  import opened Packing
  import opened Signatures
  import opened JewelSums
  import opened JewelPlans
  import opened SlotRecurrence
  import opened Datasets
  import opened Keys
  import opened SetTotals
  import opened Placements
  import opened Stats
  import opened Candidates
  import opened PointBounds
  import opened RawSets
  import opened Solutions
  import opened Reaching
  import opened Completeness
  import opened KeyPlans
  import opened InJewels
  import opened Searches
  import opened SmallItems

  // ---------- One armor for every part ----------

  /** The id of an armor is its part; only HEAD and the part after it have slots, only the body piece has skills. */
  function Pieces(a: int, b: int, body: seq<Effect>): seq<Armor> {
    seq(PART_NUM, p requires 0 <= p < PART_NUM =>
      Armor(p, KIND_BOTH, KIND_BOTH, 0, 0, if p == 0 then a else if p == 1 then b else 0, if p == BODY then body else []))
  }

  const ANY_ARMOR := ArmorFilter(0, 0, 0, 0, 0, {}, {})

  function Down(n: nat): (t: seq<int>)
    ensures |t| == n && forall i :: 0 <= i < n ==> t[i] == n - 1 - i
  {
    if n == 0 then [] else [n - 1] + Down(n - 1)
  }

  /** The armors, the body piece first. */
  function Whole(): seq<int> { Down(PART_NUM) }

  lemma {:induction false} PieceSlots(data: Data, a: int, b: int, body: seq<Effect>, n: nat, size: int)
    requires data.armors == Pieces(a, b, body) && n <= PART_NUM && size >= 1 && |body| != 1
    ensures AreArmors(data, Down(n)) && TorsoUps(data, Down(n)) == 0
    ensures PartsWith(data, Down(n), size) == (if n >= 1 && a == size then 1 else 0) + (if n >= 2 && b == size then 1 else 0)
  {
    if n > 0 {
      assert Down(n)[1..] == Down(n - 1);
      PieceSlots(data, a, b, body, n - 1, size);
    }
  }

  lemma {:induction false} PiecePoints(data: Data, a: int, b: int, body: seq<Effect>, n: nat, skill: int)
    requires data.armors == Pieces(a, b, body) && n <= BODY
    ensures AreArmors(data, Down(n)) && ArmorPoints(data, Down(n), skill) == 0
  {
    if n > 0 {
      assert Down(n)[1..] == Down(n - 1);
      PiecePoints(data, a, b, body, n - 1, skill);
    }
  }

  lemma PiecesAllowed(data: Data, query: Query, a: int, b: int, body: seq<Effect>)
    requires data.armors == Pieces(a, b, body) && query.armorFilter == ANY_ARMOR
    ensures IsAllowed(data, query, Whole()) && IsWholeArmors(data, Whole())
  {
  }

  /** The slots of the set. */
  lemma PiecesFree(data: Data, a: int, b: int, body: seq<Effect>, t: seq<int>)
    requires data.armors == Pieces(a, b, body) && |body| != 1 && IsWholeArmors(data, t) && t == Whole()
    ensures Multiplied(data, t) == 1 && BodySpace(data, t) == 0
    ensures var slots := FreeSlots(data, t);
      && slots == SlotsOf(data, t) && slots.one == (if a == 1 then 1 else 0) + (if b == 1 then 1 else 0)
      && slots.two == (if a == 2 then 1 else 0) + (if b == 2 then 1 else 0)
      && slots.three == (if a == 3 then 1 else 0) + (if b == 3 then 1 else 0)
  {
    hide PointsOf, PartsWith, TorsoUps, ArmorPoints, Down, Pieces;
    PieceSlots(data, a, b, body, PART_NUM, 1);
    PieceSlots(data, a, b, body, PART_NUM, 2);
    PieceSlots(data, a, b, body, PART_NUM, 3);
  }

  /** The skills of the set are those of the body piece. */
  lemma PiecesScore(data: Data, a: int, b: int, body: seq<Effect>, t: seq<int>, skill: int)
    requires data.armors == Pieces(a, b, body) && |body| != 1 && IsWholeArmors(data, t) && t == Whole()
    ensures SetPoints(data, t, skill) == PointsOf(body, skill)
  {
    hide PointsOf, PartsWith, TorsoUps, ArmorPoints, Down;
    assert t[1..] == Down(BODY);
    PieceSlots(data, a, b, body, PART_NUM, 1);
    PiecePoints(data, a, b, body, BODY, skill);
    ScaledAdds(PointsOf(body, skill), 0, 1);
  }

  lemma {:induction false} PieceDefense(data: Data, a: int, b: int, body: seq<Effect>, n: nat)
    requires data.armors == Pieces(a, b, body) && n <= PART_NUM
    ensures AreArmors(data, Down(n)) && Defense(data, Down(n)) == 0
  {
    if n > 0 {
      assert Down(n)[1..] == Down(n - 1);
      PieceDefense(data, a, b, body, n - 1);
    }
  }

  /** Jewels that fit and suffice make a solution of the pieces. */
  lemma PiecesQualify(data: Data, query: Query, a: int, b: int, body: seq<Effect>, ids: seq<int>)
    requires Ready(data, query) && 1 <= |query.effects| <= EFFECTS && NoOverflow(data, query) && query.defense == 0
    requires data.armors == Pieces(a, b, body) && |body| != 1 && query.armorFilter == ANY_ARMOR
    requires AllUsable(data, query, ids) && data.AreJewels(ids)
    requires Fits(Slots((if a == 1 then 1 else 0) + (if b == 1 then 1 else 0), (if a == 2 then 1 else 0) + (if b == 2 then 1 else 0),
                        (if a == 3 then 1 else 0) + (if b == 3 then 1 else 0)), SizesOf(data, ids))
    requires forall e :: 0 <= e < |query.effects| ==>
      PointsOf(body, query.effects[e].id) + SkillPoints(data, ids, query.effects[e].id) >= query.effects[e].points
    ensures Qualifies(data, query, Reversed(Whole()))
  {
    hide Usable, SetPoints, FreeSlots, BodySpace, Multiplied, SizesOf, SkillPoints, Defense, Completable, Data.Valid, Query.Valid,
      NoOverflow, PointsOf, Pieces, Fits, PointBounds.IsAllowed, Down, SlotsOf;
    var t := Whole();
    PiecesAllowed(data, query, a, b, body);
    PiecesFree(data, a, b, body, t);
    PieceDefense(data, a, b, body, PART_NUM);
    NoBodyFits(data, query, t, ids);
    forall e | 0 <= e < |query.effects|
      ensures SetPoints(data, t, query.effects[e].id) + JewelPoints(data, ids, [], Multiplied(data, t), query.effects[e].id)
              >= query.effects[e].points
    {
      PiecesScore(data, a, b, body, t, query.effects[e].id);
      NoSkillPoints(data, query.effects[e].id);
      ScaledAdds(0, 0, 1);
    }
    FittingCompletes(data, query, t, ids, []);
    QualifiesIff(data, query, t);
  }

  function TwoEffects(points: int): Query {
    Query([Effect(1, 1), Effect(2, points)], 0, 1, false, ANY_ARMOR, JewelFilter({}))
  }

  lemma TwoEffectsReady(data: Data, query: Query, points: int, a: int, b: int, body: seq<Effect>)
    requires query == TwoEffects(points) && 0 < points < 128 && data.armors == Pieces(a, b, body)
    requires 0 <= a <= 3 && 0 <= b <= 3 && |body| != 1 && DistinctIds(body)
    requires forall id :: data.IsJewel(id) ==> 0 <= data.jewels[id].slots <= 3 && DistinctIds(data.jewels[id].effects)
    ensures Ready(data, query)
  {
  }

  // ---------- Points that a later jewel would make up for ----------

  /** The body piece has one point in the first effect and minus one in the second; a jewel for the second brings two. */
  function SpoiledData(): Data {
    Data(Pieces(1, 0, [Effect(1, 1), Effect(2, -1)]), [Jewel(1, [Effect(2, 2)])], map[])
  }

  lemma SpoiledFacts(data: Data, query: Query)
    requires data == SpoiledData() && query == TwoEffects(1)
    ensures Ready(data, query)
    ensures PointsOf(data.jewels[0].effects, 1) == 0 && PointsOf(data.jewels[0].effects, 2) == 2
    ensures var body := [Effect(1, 1), Effect(2, -1)]; PointsOf(body, 1) == 1 && PointsOf(body, 2) == -1
  {
    var body := [Effect(1, 1), Effect(2, -1)];
    assert body[1..] == [Effect(2, -1)] && body[1..][1..] == [];
    assert data.jewels[0].effects[1..] == [];
    TwoEffectsReady(data, query, 1, 1, 0, body);
  }

  lemma SpoiledUsable(data: Data, query: Query)
    requires data == SpoiledData() && query == TwoEffects(1)
    ensures Usable(data, query, 0) && data.AreJewels([0]) && !JewelValid(data.jewels[0], [1])
  {
    assert SkillIds(query.effects)[1] == 2;
    assert data.jewels[0].effects[0] == Effect(2, 2);
  }

  lemma SpoiledSmall(data: Data, query: Query)
    requires data == SpoiledData() && query == TwoEffects(1)
    requires PointsOf(data.jewels[0].effects, 1) == 0 && PointsOf(data.jewels[0].effects, 2) == 2
    requires var body := [Effect(1, 1), Effect(2, -1)]; PointsOf(body, 1) == 1 && PointsOf(body, 2) == -1
    ensures ItemsAreSmall(data, query)
  {
    hide JewelValid;
  }

  lemma NoClass(data: Data, query: Query, e: nat, size: int)
    requires data.Valid() && e < |query.effects| <= EFFECTS && 1 <= size <= 3
    requires forall id :: data.IsJewel(id) && data.jewels[id].slots == size ==> !JewelValid(data.jewels[id], [query.effects[e].id])
    ensures EffectClasses(data, query, e)[size] == {}
  {
    hide JewelValid, JewelSignature;
  }

  lemma SomeInClass(keys: seq<Signature>, class_: set<Signature>)
    requires AllIn(keys, class_) && keys != []
    ensures class_ != {}
  {
    assert keys[0] in class_;
  }

  lemma NoneChosenFrom(choice: Choice, classes: Classes)
    requires choice.From(classes) && forall size :: 1 <= size <= 3 ==> classes[size] == {}
    ensures choice == NO_JEWELS
  {
    hide AllIn;
    if choice.ones != [] {
      SomeInClass(choice.ones, classes[1]);
    }
    if choice.twos != [] {
      SomeInClass(choice.twos, classes[2]);
    }
    if choice.threes != [] {
      SomeInClass(choice.threes, classes[3]);
    }
  }

  /** The first stage refuses every key of the armors, for their points in the second effect; still they have a solution. */
  lemma SpoiledLost(data: Data, query: Query)
    requires data == SpoiledData() && query == TwoEffects(1)
    ensures Searchable(data, query) && Qualifies(data, query, Reversed(Whole()))
    ensures !Alive(data, query, Whole(), 1) && !Found(data, query, Whole())
  {
    hide Searchable, Qualifies, Found, Alive, Pieces, Down, ItemsAreSmall, PointsOf, Usable, JewelValid, NoOverflow, SplitKeysFit;
    SpoiledFacts(data, query);
    SpoiledUsable(data, query);
    SpoiledSmall(data, query);
    SmallItemsSearchable(data, query);
    SearchableBounds(data, query);
    OneJewelSolves(data, query);
    if Alive(data, query, Whole(), 1) {
      SpoiledRefused(data, query);
    }
    NeverFound(data, query, Whole(), 1);
  }

  lemma {:induction false} NeverFound(data: Data, query: Query, t: seq<int>, s: nat)
    requires 1 <= s <= |query.effects| <= EFFECTS && !Alive(data, query, t, s)
    ensures !Found(data, query, t)
    decreases |query.effects| - s
  {
    hide Reached, Alive;
    if s < |query.effects| {
      if Alive(data, query, t, s + 1) {
        AliveBefore(data, query, t, s);
      }
      NeverFound(data, query, t, s + 1);
    }
  }

  lemma OneAlone(data: Data, id: int, skill: int)
    requires data.IsJewel(id) && data.jewels[id].slots == 1
    ensures data.AreJewels([id])
    ensures SizesOf(data, [id]) == Slots(1, 0, 0) && SkillPoints(data, [id], skill) == PointsOf(data.jewels[id].effects, skill)
  {
    hide PointsOf;
    assert [id][0] == id && [id][1..] == [];
    forall size
      ensures SizeCount(data, [id], size) == if size == 1 then 1 else 0
    {
      assert SizeCount(data, [id][1..], size) == 0;
    }
    assert SkillPoints(data, [id][1..], skill) == 0;
  }

  lemma OneJewelSolves(data: Data, query: Query)
    requires data == SpoiledData() && query == TwoEffects(1) && Ready(data, query) && NoOverflow(data, query)
    requires Usable(data, query, 0) && data.AreJewels([0])
    requires PointsOf(data.jewels[0].effects, 1) == 0 && PointsOf(data.jewels[0].effects, 2) == 2
    requires var body := [Effect(1, 1), Effect(2, -1)]; PointsOf(body, 1) == 1 && PointsOf(body, 2) == -1
    ensures Qualifies(data, query, Reversed(Whole()))
  {
    hide Usable, NoOverflow, PointsOf, Pieces, Data.Valid, Query.Valid, Whole;
    var body := [Effect(1, 1), Effect(2, -1)];
    OneAlone(data, 0, 1);
    OneAlone(data, 0, 2);
    PiecesQualify(data, query, 1, 0, body, [0]);
  }

  lemma SpoiledRefused(data: Data, query: Query)
    requires data == SpoiledData() && query == TwoEffects(1) && Ready(data, query) && !JewelValid(data.jewels[0], [1])
    requires var body := [Effect(1, 1), Effect(2, -1)]; PointsOf(body, 2) == -1
    ensures !Alive(data, query, Whole(), 1)
  {
    hide Pieces, Data.Valid, Query.Valid, Whole, JewelValid, PointsOf, Alive, SetPoints, PointBounds.IsAllowed;
    PiecesAllowed(data, query, 1, 0, [Effect(1, 1), Effect(2, -1)]);
    PiecesScore(data, 1, 0, [Effect(1, 1), Effect(2, -1)], Whole(), 2);
    AlreadyRefused(data, query, Whole());
  }

  /** Without jewels for the first effect, a set with negative points in the second does not come through the first stage. */
  lemma AlreadyRefused(data: Data, query: Query, t: seq<int>)
    requires Ready(data, query) && 1 < |query.effects| <= EFFECTS && IsWholeArmors(data, t)
    requires forall id :: data.IsJewel(id) ==> !JewelValid(data.jewels[id], [query.effects[0].id])
    requires -128 <= SetPoints(data, t, query.effects[1].id) < 0
    ensures !Alive(data, query, t, 1)
  {
    hide Data.Valid, Query.Valid, JewelValid, Reached, EffectClasses, SetPoints, AsChar, FreeSlots, BodySpace, Multiplied, KeySlots,
      BodySlotSum, Plan.Points, GetPoints;
    if jewelKey :| Reached(data, query, t, 1, jewelKey) {
      var plan := FirstPlan(data, query, t, jewelKey);
      forall size | 1 <= size <= 3
        ensures EffectClasses(data, query, 0)[size] == {}
      {
        NoClass(data, query, 0, size);
      }
      NoneChosenFrom(plan.free, EffectClasses(data, query, 0));
      NoneChosenFrom(plan.body, EffectClasses(data, query, 0));
      NoPoints(plan, Multiplied(data, t), 1);
      SmallChar(0);
      StageByte(data, query, t, 1, jewelKey, 1);
      assert false;
    }
  }

  lemma NoPoints(plan: Plan, multiplier: int, e: nat)
    requires plan.free == NO_JEWELS && plan.body == NO_JEWELS && e < EFFECTS
    ensures plan.Points(multiplier, e) == 0
  {
  }

  // ---------- Slots that the residual loses ----------

  /** A 2-slot and a 3-slot; a 1-jewel brings a point in the first effect, a 2-jewel one in the second. */
  function LossyData(): Data {
    Data(Pieces(2, 3, []), [Jewel(1, [Effect(1, 1)]), Jewel(2, [Effect(2, 1)])], map[])
  }

  lemma LossyFacts(data: Data, query: Query)
    requires data == LossyData() && query == TwoEffects(2)
    ensures Ready(data, query)
    ensures PointsOf(data.jewels[0].effects, 1) == 1 && PointsOf(data.jewels[0].effects, 2) == 0
    ensures PointsOf(data.jewels[1].effects, 1) == 0 && PointsOf(data.jewels[1].effects, 2) == 1
  {
    assert data.jewels[0].effects[1..] == [] && data.jewels[1].effects[1..] == [];
    TwoEffectsReady(data, query, 2, 2, 3, []);
  }

  lemma LossyUsable(data: Data, query: Query)
    requires data == LossyData() && query == TwoEffects(2)
    ensures Usable(data, query, 0) && Usable(data, query, 1) && data.AreJewels([0, 1, 1])
    ensures !JewelValid(data.jewels[1], [1]) && !JewelValid(data.jewels[0], [2])
  {
    assert SkillIds(query.effects)[0] == 1 && SkillIds(query.effects)[1] == 2;
    assert data.jewels[0].effects[0] == Effect(1, 1) && data.jewels[1].effects[0] == Effect(2, 1);
  }

  lemma LossySmall(data: Data, query: Query)
    requires data == LossyData() && query == TwoEffects(2)
    requires PointsOf(data.jewels[0].effects, 1) == 1 && PointsOf(data.jewels[0].effects, 2) == 0
    requires PointsOf(data.jewels[1].effects, 1) == 0 && PointsOf(data.jewels[1].effects, 2) == 1
    ensures ItemsAreSmall(data, query)
  {
    hide JewelValid;
  }

  lemma ThreeJewelsSolve(data: Data, query: Query)
    requires data == LossyData() && query == TwoEffects(2) && Ready(data, query) && NoOverflow(data, query)
    requires Usable(data, query, 0) && Usable(data, query, 1) && data.AreJewels([0, 1, 1])
    requires PointsOf(data.jewels[0].effects, 1) == 1 && PointsOf(data.jewels[0].effects, 2) == 0
    requires PointsOf(data.jewels[1].effects, 1) == 0 && PointsOf(data.jewels[1].effects, 2) == 1
    ensures Qualifies(data, query, Reversed(Whole()))
  {
    hide Usable, NoOverflow, PointsOf, Pieces, Data.Valid, Query.Valid, Whole, Qualifies;
    var ids := [0, 1, 1];
    assert ids[1..] == [1, 1] && ids[1..][1..] == [1] && ids[1..][1..][1..] == [];
    assert SizesOf(data, ids) == Slots(1, 2, 0);
    NothingScored(1);
    NothingScored(2);
    PiecesQualify(data, query, 2, 3, [], ids);
  }

  lemma NothingScored(skill: int)
    ensures PointsOf([], skill) == 0
  {
  }

  /** Jewels that are all the same. */
  lemma {:induction false} SameJewelTotals(data: Data, ids: seq<int>, id: int, skill: int)
    requires data.AreJewels(ids) && data.IsJewel(id) && forall n :: 0 <= n < |ids| ==> ids[n] == id
    ensures SkillPoints(data, ids, skill) == |ids| * PointsOf(data.jewels[id].effects, skill)
  {
    hide PointsOf;
    if ids != [] {
      SameJewelTotals(data, ids[1..], id, skill);
    }
  }

  /** The jewels for effect `e` are all the jewel of that number. */
  lemma LossyJewels(data: Data, query: Query, e: nat, load: Load)
    requires data.jewels == LossyData().jewels && query == TwoEffects(2) && 0 <= e <= 1 && AllFor(data, query, e, load)
    requires PointsOf(data.jewels[0].effects, 1) == 1 && PointsOf(data.jewels[0].effects, 2) == 0
    requires PointsOf(data.jewels[1].effects, 1) == 0 && PointsOf(data.jewels[1].effects, 2) == 1
    requires !JewelValid(data.jewels[1], [1]) && !JewelValid(data.jewels[0], [2])
    ensures data.AreJewels(load.ids) && SizesOf(data, load.ids) == if e == 0 then Slots(|load.ids|, 0, 0) else Slots(0, |load.ids|, 0)
    ensures forall skill :: 1 <= skill <= 2 ==> SkillPoints(data, load.ids, skill) == if skill == e + 1 then |load.ids| else 0
  {
    hide PointsOf, SizeCount, SkillPoints, JewelValid;
    var ids := load.ids;
    forall n | 0 <= n < |ids|
      ensures data.IsJewel(ids[n]) && ids[n] == e
    {
      assert Usable(data, query, ids[n]) && JewelValid(data.jewels[ids[n]], [query.effects[e].id]);
    }
    SizesOfSame(data, ids, e + 1, 1);
    SizesOfSame(data, ids, e + 1, 2);
    SizesOfSame(data, ids, e + 1, 3);
    SameJewelTotals(data, ids, e, 1);
    SameJewelTotals(data, ids, e, 2);
  }

  lemma OneTwoJewel(c: int, d: int)
    requires c >= 1 && d >= 0 && Fits(Slots(0, 1, 1), Slots(c, 0, 0)) && Fits(Residual(Slots(0, 1, 1), Slots(c, 0, 0)), Slots(0, d, 0))
    ensures d <= 1
  {
  }

  /** The second stage refuses the armors: each 1-jewel leaves room for one 2-jewel only. */
  lemma LossyRefused(data: Data, query: Query)
    requires data == LossyData() && query == TwoEffects(2) && Ready(data, query) && NoOverflow(data, query)
    requires PointsOf(data.jewels[0].effects, 1) == 1 && PointsOf(data.jewels[0].effects, 2) == 0
    requires PointsOf(data.jewels[1].effects, 1) == 0 && PointsOf(data.jewels[1].effects, 2) == 1
    requires !JewelValid(data.jewels[1], [1]) && !JewelValid(data.jewels[0], [2])
    ensures !Alive(data, query, Whole(), 2)
  {
    hide Pieces, Data.Valid, Query.Valid, Whole, JewelValid, PointsOf, Alive, SetPoints, PointBounds.IsAllowed, NoOverflow, JewelsFit,
      FreeSlots, BodySpace, Multiplied, Residual, Fits, SizesOf, SkillPoints, AllFor, Enough, FitsLeft;
    var t := Whole();
    if Alive(data, query, t, 2) {
      AliveComes(data, query, t, 2);
      var load: Load :| Comes(data, query, t, 2, load);
      assert ComesWith(data, query, t, 1, 1, load);
      var a: Load, b: Load :| Comes(data, query, t, 1, a) && IsMore(data, query, t, 1, a, b) && load == Both(a, b);
      LossySet(data, query, t);
      LossyJewels(data, query, 0, a);
      LossyJewels(data, query, 1, b);
      assert Enough(data, query, t, Below(Covered(query, 1)), Below(1), a, 0);
      assert Enough(data, query, t, Below(Covered(query, 2)), Below(2), load, 1);
      LossyTotals(data, query, t, a, b);
      assert false;
    }
  }

  lemma LossyTotals(data: Data, query: Query, t: seq<int>, a: Load, b: Load)
    requires query == TwoEffects(2) && IsWholeArmors(data, t) && JewelsFit(data, query, t, a.ids, a.body)
    requires a.AreJewels(data) && b.AreJewels(data) && Both(a, b).AreJewels(data) && FitsLeft(data, t, a, b)
    requires Multiplied(data, t) == 1 && BodySpace(data, t) == 0 && FreeSlots(data, t) == Slots(0, 1, 1)
    requires SetPoints(data, t, 1) == 0 && SetPoints(data, t, 2) == 0
    requires SizesOf(data, a.ids) == Slots(|a.ids|, 0, 0) && SizesOf(data, b.ids) == Slots(0, |b.ids|, 0)
    requires SkillPoints(data, a.ids, 1) == |a.ids| && SkillPoints(data, a.ids, 2) == 0 && SkillPoints(data, b.ids, 2) == |b.ids|
    requires Enough(data, query, t, Below(Covered(query, 1)), Below(1), a, 0)
    ensures !Enough(data, query, t, Below(Covered(query, 2)), Below(2), Both(a, b), 1)
  {
    hide SetPoints, FreeSlots, BodySpace, Multiplied, Residual, Fits, SizesOf, SkillPoints, Usable;
    PointsConcat(data, a.ids, b.ids, 2);
    NoSkillPoints(data, 1);
    NoSkillPoints(data, 2);
    ScaledAdds(0, 0, 1);
    OneTwoJewel(|a.ids|, |b.ids|);
  }

  lemma LossySet(data: Data, query: Query, t: seq<int>)
    requires data == LossyData() && query == TwoEffects(2) && t == Whole() && IsWholeArmors(data, t)
    ensures Multiplied(data, t) == 1 && BodySpace(data, t) == 0 && FreeSlots(data, t) == Slots(0, 1, 1)
    ensures SetPoints(data, t, 1) == 0 && SetPoints(data, t, 2) == 0
  {
    hide Pieces, PointsOf, SetPoints, FreeSlots, Multiplied, BodySpace, Down;
    PiecesFree(data, 2, 3, [], t);
    PiecesScore(data, 2, 3, [], t, 1);
    PiecesScore(data, 2, 3, [], t, 2);
    NothingScored(1);
    NothingScored(2);
  }

  /** No key comes through the second stage, for the slots the residual loses; still the armors have a solution. */
  lemma LossyLost(data: Data, query: Query)
    requires data == LossyData() && query == TwoEffects(2)
    ensures Searchable(data, query) && Qualifies(data, query, Reversed(Whole()))
    ensures !Alive(data, query, Whole(), 2) && !Found(data, query, Whole())
  {
    hide Searchable, Qualifies, Found, Alive, Pieces, Down, ItemsAreSmall, PointsOf, Usable, JewelValid, NoOverflow, SplitKeysFit;
    LossyFacts(data, query);
    LossyUsable(data, query);
    LossySmall(data, query);
    SmallItemsSearchable(data, query);
    SearchableBounds(data, query);
    ThreeJewelsSolve(data, query);
    LossyRefused(data, query);
    NeverFound(data, query, Whole(), 2);
  }
}
