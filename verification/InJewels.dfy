/** The armors that come through the stages, told in jewels instead of keys. */
module InJewels {
  import opened Packing
  import opened Signatures
  import opened JewelSums
  import opened JewelPlans
  import opened SlotRecurrence
  import opened SlotClients
  import opened Datasets
  import opened Keys
  import opened SetTotals
  import opened Candidates
  import opened Residuals
  import opened PointBounds
  import opened JewelPruners
  import opened Solutions
  import opened Reaching
  import opened Completeness
  import opened KeyPlans

  function Both(a: Load, b: Load): Load {
    Load(a.ids + b.ids, a.body + b.body)
  }

  /** All jewels are usable and help with the effect. */
  predicate AllFor(data: Data, query: Query, e: nat, load: Load)
    requires e < |query.effects|
  {
    AllHelp(data, query, [query.effects[e].id], load.ids) && AllHelp(data, query, [query.effects[e].id], load.body)
  }

  // ---------- The rule ----------

  /** The jewels `b` fit the slots that the residual of `a` keeps. */
  predicate FitsLeft(data: Data, t: seq<int>, a: Load, b: Load)
    requires IsWholeArmors(data, t) && a.AreJewels(data) && b.AreJewels(data)
  {
    && Fits(Residual(FreeSlots(data, t), SizesOf(data, a.ids)), SizesOf(data, b.ids))
    && SizesOf(data, b.body).Weight() <= BodySpace(data, t) - SizesOf(data, a.body).Weight()
    && (Multiplied(data, t) < 2 ==> b.body == [])
  }

  /** All effects have what a test asks for. */
  ghost predicate AllEnough(data: Data, query: Query, t: seq<int>, shown: set<nat>, wanted: set<nat>, load: Load)
    requires IsWholeArmors(data, t) && load.AreJewels(data)
  {
    forall e :: 0 <= e < |query.effects| ==> Enough(data, query, t, shown, wanted, load, e)
  }

  /** The armors come through the first `s` stages with these jewels: those of the stage before and, in what their residual keeps,
      jewels for effect `s - 1`. The first `s` effects are reached, the others of which the trees' keys hold the points are not
      negative, and the jewels alone are not negative in the rest. */
  ghost predicate Comes(data: Data, query: Query, t: seq<int>, s: nat, load: Load)
    requires 1 <= s <= |query.effects| <= EFFECTS
    decreases s, 0
  {
    && IsAllowed(data, query, t) && IsWholeArmors(data, t) && load.AreJewels(data)
    && (if s == 1 then AllFor(data, query, 0, load) && JewelsFit(data, query, t, load.ids, load.body)
        else ComesWith(data, query, t, s - 1, s - 1, load))
    && AllEnough(data, query, t, Below(Covered(query, s)), Below(s), load)
    && (s > FoundationCount(query) ==> s > 1 && AllLikely(data, query, t, s - 1))
  }

  /** Jewels of stage `s`, and jewels for effect `i` in what their residual keeps. */
  ghost predicate ComesWith(data: Data, query: Query, t: seq<int>, s: nat, i: nat, load: Load)
    requires 1 <= s <= |query.effects| <= EFFECTS && i < |query.effects| && IsWholeArmors(data, t)
    decreases s, 1
  {
    exists a: Load, b: Load :: Comes(data, query, t, s, a) && IsMore(data, query, t, i, a, b) && load == Both(a, b)
  }

  predicate IsMore(data: Data, query: Query, t: seq<int>, i: nat, a: Load, b: Load)
    requires i < |query.effects| && IsWholeArmors(data, t)
  {
    AllFor(data, query, i, b) && a.AreJewels(data) && b.AreJewels(data) && FitsLeft(data, t, a, b)
  }

  ghost predicate SomeComes(data: Data, query: Query, t: seq<int>, s: nat)
    requires 1 <= s <= |query.effects| <= EFFECTS
    decreases s, 1
  {
    exists load: Load :: Comes(data, query, t, s, load)
  }

  /** The sets have the same slots, the same multiplier and the same points in the effects that the trees' keys hold. */
  predicate Alike(data: Data, query: Query, t: seq<int>, u: seq<int>, s: nat)
    requires IsWholeArmors(data, t) && IsWholeArmors(data, u) && s <= |query.effects|
  {
    && FreeSlots(data, t) == FreeSlots(data, u) && BodySpace(data, t) == BodySpace(data, u)
    && Multiplied(data, t) == Multiplied(data, u)
    && forall e :: 0 <= e < Covered(query, s) ==>
         SetPoints(data, t, query.effects[e].id) == SetPoints(data, u, query.effects[e].id)
  }

  /** Jewels for effect `i` alone would reach it, and the first `s`, with the armors of some set alike. */
  ghost predicate Likely(data: Data, query: Query, t: seq<int>, s: nat, i: nat)
    requires 1 <= s <= i < |query.effects| <= EFFECTS && IsAllowed(data, query, t) && IsWholeArmors(data, t)
    decreases s, 3
  {
    exists u, load: Load :: Companion(data, query, t, u, s) && ComesWith(data, query, t, s, i, load) && load.AreJewels(data)
      && AllEnough(data, query, u, Below(s) + {i}, Below(s) + {i}, load)
  }

  ghost predicate Companion(data: Data, query: Query, t: seq<int>, u: seq<int>, s: nat)
    requires 1 <= s <= |query.effects| <= EFFECTS && IsWholeArmors(data, t)
    decreases s, 2
  {
    IsAllowed(data, query, u) && IsWholeArmors(data, u) && Alike(data, query, t, u, s) && SomeComes(data, query, u, s)
  }

  ghost predicate AllLikely(data: Data, query: Query, t: seq<int>, s: nat)
    requires 1 <= s <= |query.effects| <= EFFECTS && IsAllowed(data, query, t) && IsWholeArmors(data, t)
    decreases s, 4
  {
    forall i :: s < i < |query.effects| ==> Likely(data, query, t, s, i)
  }

  // ---------- Equal keys ----------

  lemma NoJewelsFit(data: Data, query: Query, t: seq<int>)
    requires data.Valid() && IsAllowed(data, query, t) && IsWholeArmors(data, t)
    ensures JewelsFit(data, query, t, [], []) && forall skill :: JewelPoints(data, [], [], Multiplied(data, t), skill) == 0
  {
    hide FreeSlots, Multiplied, PointBounds.IsAllowed, Data.Valid;
    AllowedBounds(data, query, t);
    ScaledAdds(0, 0, Multiplied(data, t));
  }

  /** No point total of an allowed set leaves a byte. */
  lemma ArmorsInByte(data: Data, query: Query, t: seq<int>, e: nat)
    requires Ready(data, query) && NoOverflow(data, query) && IsAllowed(data, query, t) && e < |query.effects|
    ensures IsWholeArmors(data, t) && InByte(SetPoints(data, t, query.effects[e].id))
  {
    hide NoOverflow, Data.Valid, Query.Valid, SetPoints, Multiplied, PointBounds.IsAllowed, JewelsFit, JewelPoints;
    AllowedArmors(data, query, t);
    NoJewelsFit(data, query, t);
    TotalsOf(data, query, t, [], [], e);
  }

  /** Sets are in one tree exactly when they are alike. */
  lemma KeyAlike(data: Data, query: Query, t: seq<int>, u: seq<int>, s: nat)
    requires Ready(data, query) && NoOverflow(data, query) && s <= |query.effects| <= EFFECTS
    requires IsAllowed(data, query, t) && IsAllowed(data, query, u)
    ensures IsWholeArmors(data, t) && IsWholeArmors(data, u)
    ensures KeyFor(data, query, t, s) == KeyFor(data, query, u, s) <==> Alike(data, query, t, u, s)
  {
    hide NoOverflow, Data.Valid, Query.Valid, SetPoints, Multiplied, PointBounds.IsAllowed, FreeSlots, BodySpace, KeyFor, AsChar,
      KeySlots, BodySlotSum, Multiplier, GetPoints, SlotsInBounds;
    KeyForIs(data, query, t, s);
    KeyForIs(data, query, u, s);
    if KeyFor(data, query, t, s) == KeyFor(data, query, u, s) {
      forall e | 0 <= e < Covered(query, s)
        ensures SetPoints(data, t, query.effects[e].id) == SetPoints(data, u, query.effects[e].id)
      {
        ArmorsInByte(data, query, t, e);
        ArmorsInByte(data, query, u, e);
        SmallChar(SetPoints(data, t, query.effects[e].id));
        SmallChar(SetPoints(data, u, query.effects[e].id));
        assert GetPoints(KeyFor(data, query, t, s), e) == GetPoints(KeyFor(data, query, u, s), e);
      }
    }
    if Alike(data, query, t, u, s) {
      AlikeFields(data, query, t, u, s);
    }
  }

  lemma AlikeFields(data: Data, query: Query, t: seq<int>, u: seq<int>, s: nat)
    requires IsWholeArmors(data, t) && IsWholeArmors(data, u) && s <= |query.effects| <= EFFECTS && Alike(data, query, t, u, s)
    ensures KeyFor(data, query, t, s) == KeyFor(data, query, u, s)
  {
    hide SetPoints, Multiplied, FreeSlots, Pack;
    var f, g := SetFields(data, query.effects[..Covered(query, s)], t), SetFields(data, query.effects[..Covered(query, s)], u);
    assert f.points == g.points by {
      assert forall e :: 0 <= e < Covered(query, s) ==> query.effects[..Covered(query, s)][e] == query.effects[e];
    }
    assert f == g;
  }

  // ---------- The tests ----------

  /** What a test that is passed means, effect by effect. */
  lemma TestMeans(data: Data, query: Query, t: seq<int>, load: Load, plan: Plan, shown: set<nat>, wanted: set<nat>,
                  key: Signature, inverse: Signature)
    requires Ready(data, query) && |query.effects| <= EFFECTS && NoOverflow(data, query) && IsAllowed(data, query, t)
    requires IsWholeArmors(data, t) && JewelsFit(data, query, t, load.ids, load.body) && load.AreJewels(data)
    requires plan.From(QueryClasses(data, query)) && Represents(data, query, plan, Multiplied(data, t), load.ids, load.body)
    requires IsTest(data, query, t, shown, wanted, key, inverse) && wanted <= shown
    requires Satisfy(Or(key, plan.Total(Multiplied(data, t))), inverse)
    ensures AllEnough(data, query, t, shown, wanted, load)
  {
    hide NoOverflow, JewelsFit, FreeSlots, BodySpace, Multiplied, SizesOf, JewelPoints, SetPoints, Query.Valid,
      Data.Valid, PointBounds.IsAllowed, Plan.Points, Plan.Total, QueryClasses, KeySlots, BodySlotSum, GetPoints, AsChar,
      IsJewelKey, Choice.From, Satisfy, BodySlots, Or;
    var m := Multiplied(data, t);
    var jewelKey := plan.Total(m);
    RepresentedFits(data, query, t, plan, load.ids, load.body);
    AllowedBounds(data, query, t);
    QueryKeysAreJewelKeys(data, query);
    PlanReadsBack(plan, m, QueryClasses(data, query), FreeSlots(data, t), BodySpace(data, t));
    forall e | 0 <= e < |query.effects|
      ensures Enough(data, query, t, shown, wanted, load, e)
    {
      PlanInByte(data, query, t, plan, e);
      PositiveAsked(query, e);
      SatisfiedEffect(Or(key, jewelKey), inverse, e);
      TestedSum(key, jewelKey, e, if e in shown then SetPoints(data, t, query.effects[e].id) else 0, plan.Points(m, e));
    }
  }

  // ---------- From jewels to keys ----------

  lemma ClassesAdmitted(data: Data, query: Query, e: nat)
    requires e < |query.effects| <= EFFECTS
    ensures EffectClasses(data, query, e) == AdmittedClasses(data, [query.effects[e].id], query.effects, query.jewelFilter)
    ensures AreAsked(query, [query.effects[e].id])
  {
    assert SkillIds(query.effects)[e] == query.effects[e].id;
  }

  lemma PlanFor(data: Data, query: Query, e: nat, multiplier: int, load: Load) returns (plan: Plan)
    requires Ready(data, query) && e < |query.effects| <= EFFECTS && NoOverflow(data, query) && AllFor(data, query, e, load)
    ensures plan.From(EffectClasses(data, query, e)) && plan.From(QueryClasses(data, query))
    ensures load.AreJewels(data) && Represents(data, query, plan, multiplier, load.ids, load.body)
  {
    hide NoOverflow, Data.Valid, Query.Valid, AllHelp, EffectClasses, QueryClasses, AdmittedClasses, Choice.From, SizeCount, JewelPoints,
      Plan.Points;
    ClassesAdmitted(data, query, e);
    plan := PlanOfJewels(data, query, [query.effects[e].id], multiplier, load.ids, load.body);
    EffectClassesSub(data, query, e);
    FromMore(plan, EffectClasses(data, query, e), QueryClasses(data, query));
  }

  /** Two lots of jewels together. */
  lemma LoadsJoin(data: Data, query: Query, t: seq<int>, a: Load, b: Load, p: Plan, q: Plan)
    requires |query.effects| <= EFFECTS && IsWholeArmors(data, t)
    requires Represents(data, query, p, Multiplied(data, t), a.ids, a.body)
    requires Represents(data, query, q, Multiplied(data, t), b.ids, b.body)
    ensures Both(a, b).AreJewels(data)
    ensures Represents(data, query, p.Plus(q), Multiplied(data, t), Both(a, b).ids, Both(a, b).body)
  {
    hide Multiplied, SizeCount, SkillPoints, Scaled, Plan.Points;
    var m := Multiplied(data, t);
    forall size
      ensures data.AreJewels(a.ids + b.ids) && data.AreJewels(a.body + b.body)
      ensures SizeCount(data, a.ids + b.ids, size) == SizeCount(data, a.ids, size) + SizeCount(data, b.ids, size)
      ensures SizeCount(data, a.body + b.body, size) == SizeCount(data, a.body, size) + SizeCount(data, b.body, size)
    {
      SizesConcat(data, a.ids, b.ids, size);
      SizesConcat(data, a.body, b.body, size);
    }
    forall e | 0 <= e < |query.effects|
      ensures p.Plus(q).Points(m, e) == JewelPoints(data, a.ids + b.ids, a.body + b.body, m, query.effects[e].id)
    {
      var skill := query.effects[e].id;
      PointsConcat(data, a.ids, b.ids, skill);
      PointsConcat(data, a.body, b.body, skill);
      ScaledAdds(SkillPoints(data, a.body, skill), SkillPoints(data, b.body, skill), m);
      PlanPointsPlus(p, q, m, e);
    }
  }

  lemma FromBoth(p: Plan, q: Plan, classes: Classes)
    requires p.From(classes) && q.From(classes)
    ensures p.Plus(q).From(classes)
  {
    FromPlus(p.free, q.free, classes);
    FromPlus(p.body, q.body, classes);
  }

  /** What the jewels of a stage and those added to them are, as plans. */
  lemma LeftFits(data: Data, query: Query, t: seq<int>, i: nat, a: Load, b: Load, p: Plan, q: Plan)
    requires data.Valid() && |query.effects| <= EFFECTS && IsAllowed(data, query, t) && IsWholeArmors(data, t)
    requires JewelsFit(data, query, t, a.ids, a.body) && i < |query.effects| && IsMore(data, query, t, i, a, b)
    requires Represents(data, query, p, Multiplied(data, t), a.ids, a.body)
    requires Represents(data, query, q, Multiplied(data, t), b.ids, b.body)
    ensures p.FitsIn(FreeSlots(data, t), BodySpace(data, t), Multiplied(data, t))
    ensures q.FitsIn(Residual(FreeSlots(data, t), p.free.Counts()), BodySpace(data, t) - p.body.Counts().Weight(), Multiplied(data, t))
    ensures Both(a, b).AreJewels(data) && JewelsFit(data, query, t, Both(a, b).ids, Both(a, b).body)
    ensures Represents(data, query, p.Plus(q), Multiplied(data, t), Both(a, b).ids, Both(a, b).body)
  {
    hide Multiplied, SizesOf, JewelPoints, Plan.Points, SetPoints, FreeSlots, BodySpace, PointBounds.IsAllowed, Data.Valid, Fits, Residual,
      Usable, JewelValid, Slots.Weight;
    RepresentedFits(data, query, t, p, a.ids, a.body);
    if b.body == [] {
      NothingChosen(data, q.body);
    }
    LoadsJoin(data, query, t, a, b, p, q);
    AllowedBounds(data, query, t);
    PlanExtends(p, q, FreeSlots(data, t), BodySpace(data, t), Multiplied(data, t));
  }

  /** Jewels with which a set comes through make a key with which it comes through. */
  lemma {:induction false} ComesReached(data: Data, query: Query, t: seq<int>, s: nat, load: Load) returns (plan: Plan)
    requires Ready(data, query) && 1 <= s <= |query.effects| <= EFFECTS && NoOverflow(data, query) && Comes(data, query, t, s, load)
    ensures IsAllowed(data, query, t) && IsWholeArmors(data, t) && JewelsFit(data, query, t, load.ids, load.body)
    ensures plan.From(QueryClasses(data, query)) && Represents(data, query, plan, Multiplied(data, t), load.ids, load.body)
    ensures Reached(data, query, t, s, plan.Total(Multiplied(data, t)))
    decreases s, 3
  {
    hide NoOverflow, Data.Valid, Query.Valid, AllHelp, EffectClasses, QueryClasses, Choice.From, SizesOf, JewelPoints, Plan.Points,
      Plan.Total, SetPoints, FreeSlots, BodySpace, Multiplied, PointBounds.IsAllowed, JewelsFit, KeyFor, FillAll, Represents, Plan.FitsIn,
      InverseKey, Satisfy, Or, IsTest, ReachedMore, ComesWith, AllLikely, OthersHopeful, Enough;
    if s == 1 {
      plan := FirstReached(data, query, t, load);
    } else {
      plan := WithReached(data, query, t, s - 1, s - 1, load);
    }
    StageTest(data, query, t, s);
    TestPasses(data, query, t, load, plan, Below(Covered(query, s)), Below(s), KeyFor(data, query, t, s), InverseKey(query.effects, s));
    if s > FoundationCount(query) {
      LikelyAll(data, query, t, s - 1);
    }
  }

  lemma {:induction false} LikelyAll(data: Data, query: Query, t: seq<int>, s: nat)
    requires Ready(data, query) && 1 <= s && FoundationCount(query) <= s < |query.effects| <= EFFECTS && NoOverflow(data, query)
    requires IsAllowed(data, query, t) && IsWholeArmors(data, t) && AllLikely(data, query, t, s)
    ensures OthersHopeful(data, query, t, s)
    decreases s, 6
  {
    hide NoOverflow, Ready, Likely, Hopeful, PointBounds.IsAllowed;
    forall i | s < i < |query.effects|
      ensures Hopeful(data, query, t, s, i)
    {
      LikelyHopeful(data, query, t, s, i);
    }
  }

  lemma FirstReached(data: Data, query: Query, t: seq<int>, load: Load) returns (plan: Plan)
    requires Ready(data, query) && 1 <= |query.effects| <= EFFECTS && NoOverflow(data, query)
    requires IsAllowed(data, query, t) && IsWholeArmors(data, t)
    requires AllFor(data, query, 0, load) && JewelsFit(data, query, t, load.ids, load.body)
    ensures plan.From(QueryClasses(data, query)) && Represents(data, query, plan, Multiplied(data, t), load.ids, load.body)
    ensures plan.Total(Multiplied(data, t)) in FillAll(EffectClasses(data, query, 0), KeyFor(data, query, t, 1))
  {
    hide NoOverflow, Data.Valid, Query.Valid, AllHelp, EffectClasses, QueryClasses, Choice.From, SizesOf, JewelPoints, Plan.Points,
      Plan.Total, SetPoints, FreeSlots, BodySpace, Multiplied, PointBounds.IsAllowed, JewelsFit, KeyFor, KeySlots, BodySlotSum,
      Multiplier, Fill, FillAll, Represents, Plan.FitsIn;
    plan := PlanFor(data, query, 0, Multiplied(data, t), load);
    RepresentedFits(data, query, t, plan, load.ids, load.body);
    var key, slots := KeyFor(data, query, t, 1), FreeSlots(data, t);
    KeyForIs(data, query, t, 1);
    FillComplete(EffectClasses(data, query, 0), slots.one, slots.two, slots.three, BodySpace(data, t), Multiplied(data, t), plan);
    FillAllIs(EffectClasses(data, query, 0), key);
  }

  lemma {:induction false} WithReached(data: Data, query: Query, t: seq<int>, s: nat, i: nat, load: Load) returns (plan: Plan)
    requires Ready(data, query) && 1 <= s < |query.effects| <= EFFECTS && i < |query.effects| && NoOverflow(data, query)
    requires IsAllowed(data, query, t) && IsWholeArmors(data, t) && ComesWith(data, query, t, s, i, load)
    ensures load.AreJewels(data) && JewelsFit(data, query, t, load.ids, load.body)
    ensures plan.From(QueryClasses(data, query)) && Represents(data, query, plan, Multiplied(data, t), load.ids, load.body)
    ensures ReachedMore(data, query, t, s, i, plan.Total(Multiplied(data, t)))
    decreases s, 4
  {
    hide NoOverflow, Data.Valid, Query.Valid, AllHelp, EffectClasses, QueryClasses, Choice.From, Plan.Total, FreeSlots, BodySpace, Multiplied,
      PointBounds.IsAllowed, JewelsFit, Represents, Plan.FitsIn, Reached, ReachedMore, Comes, IsMore;
    var a: Load, b: Load :| Comes(data, query, t, s, a) && IsMore(data, query, t, i, a, b) && load == Both(a, b);
    var p := ComesReached(data, query, t, s, a);
    MoreIs(data, query, t, i, a, b);
    var q := PlanFor(data, query, i, Multiplied(data, t), b);
    LeftFits(data, query, t, i, a, b, p, q);
    ExtendedReached(data, query, t, s, i, p, q);
    FromBoth(p, q, QueryClasses(data, query));
    plan := p.Plus(q);
  }

  lemma MoreIs(data: Data, query: Query, t: seq<int>, i: nat, a: Load, b: Load)
    requires i < |query.effects| && IsWholeArmors(data, t) && IsMore(data, query, t, i, a, b)
    ensures AllFor(data, query, i, b) && a.AreJewels(data) && b.AreJewels(data) && FitsLeft(data, t, a, b)
  {
  }

  /** The jewels fit a set alike as well. */
  lemma AlikeFit(data: Data, query: Query, t: seq<int>, u: seq<int>, s: nat, load: Load)
    requires IsWholeArmors(data, t) && IsWholeArmors(data, u) && s <= |query.effects| && Alike(data, query, t, u, s)
    requires JewelsFit(data, query, t, load.ids, load.body)
    ensures JewelsFit(data, query, u, load.ids, load.body) && Multiplied(data, t) == Multiplied(data, u)
  {
    hide FreeSlots, BodySpace, Multiplied, SetPoints, SizesOf, Usable;
  }

  lemma {:induction false} LikelyHopeful(data: Data, query: Query, t: seq<int>, s: nat, i: nat)
    requires Ready(data, query) && 1 <= s && FoundationCount(query) <= s < i < |query.effects| <= EFFECTS && NoOverflow(data, query)
    requires IsAllowed(data, query, t) && IsWholeArmors(data, t) && Likely(data, query, t, s, i)
    ensures Hopeful(data, query, t, s, i)
    decreases s, 5
  {
    hide NoOverflow, Data.Valid, Query.Valid, QueryClasses, Choice.From, Plan.Total, Multiplied, PointBounds.IsAllowed, JewelsFit, Represents,
      Reached, ReachedMore, Comes, ComesWith, Alike, AllEnough, KeyFor, IsTest, Satisfy, Or, AddPoints, InverseWith, SetPoints, Enough;
    var u, load: Load :| Companion(data, query, t, u, s) && ComesWith(data, query, t, s, i, load) && load.AreJewels(data)
      && AllEnough(data, query, u, Below(s) + {i}, Below(s) + {i}, load);
    KeyAlike(data, query, t, u, s);
    assert SomeComes(data, query, u, s);
    var w: Load :| Comes(data, query, u, s, w);
    var own := ComesReached(data, query, u, s, w);
    assert Alive(data, query, u, s);
    var plan := WithReached(data, query, t, s, i, load);
    AlikeFit(data, query, t, u, s, load);
    HopeTest(data, query, u, s, i);
    EnoughAll(data, query, u, Below(s) + {i}, Below(s) + {i}, load);
    TestPasses(data, query, u, load, plan, Below(s) + {i}, Below(s) + {i},
               AddPoints(KeyFor(data, query, u, s), i, SetPoints(data, u, query.effects[i].id)), InverseWith(query.effects, s, i));
    assert Mate(data, query, t, u, s);
  }

  lemma EnoughAll(data: Data, query: Query, t: seq<int>, shown: set<nat>, wanted: set<nat>, load: Load)
    requires IsWholeArmors(data, t) && load.AreJewels(data) && AllEnough(data, query, t, shown, wanted, load)
    ensures forall e :: 0 <= e < |query.effects| ==> Enough(data, query, t, shown, wanted, load, e)
  {
    hide Enough;
  }

  // ---------- From keys to jewels ----------

  /** Jewels behind a plan. */
  lemma LoadOfSkills(data: Data, query: Query, skills: seq<int>, multiplier: int, plan: Plan) returns (load: Load)
    requires Ready(data, query) && |query.effects| <= EFFECTS && NoOverflow(data, query) && AreAsked(query, skills)
    requires plan.From(AdmittedClasses(data, skills, query.effects, query.jewelFilter))
    ensures AllHelp(data, query, skills, load.ids) && AllHelp(data, query, skills, load.body) && load.AreJewels(data)
    ensures Represents(data, query, plan, multiplier, load.ids, load.body)
    ensures plan.body == NO_JEWELS ==> load.body == []
  {
    hide NoOverflow, Data.Valid, Query.Valid, AllHelp, AreAsked, AdmittedClasses, Choice.From, SizeCount, SkillPoints, ChoicePoints, Scaled;
    var ids := JewelsOfChoice(data, query, skills, plan.free);
    var body := JewelsOfChoice(data, query, skills, plan.body);
    load := Load(ids, body);
    forall i | 0 <= i < |query.effects|
      ensures plan.Points(multiplier, i) == JewelPoints(data, ids, body, multiplier, query.effects[i].id)
    {
      ScaledIs(ChoicePoints(plan.body, i), multiplier);
    }
  }

  lemma LoadOf(data: Data, query: Query, e: nat, multiplier: int, plan: Plan) returns (load: Load)
    requires Ready(data, query) && e < |query.effects| <= EFFECTS && NoOverflow(data, query)
    requires plan.From(EffectClasses(data, query, e))
    ensures AllFor(data, query, e, load) && load.AreJewels(data)
    ensures Represents(data, query, plan, multiplier, load.ids, load.body)
    ensures plan.body == NO_JEWELS ==> load.body == []
  {
    hide NoOverflow, Data.Valid, Query.Valid, AllHelp, AreAsked, EffectClasses, AdmittedClasses, Choice.From, Represents;
    ClassesAdmitted(data, query, e);
    load := LoadOfSkills(data, query, [query.effects[e].id], multiplier, plan);
  }

  lemma ScaledIs(x: int, m: int)
    ensures Scaled(x, m) == x * m
  {
  }

  /** Jewels fit where their plan fits. */
  lemma LoadFits(data: Data, query: Query, t: seq<int>, e: nat, load: Load, plan: Plan)
    requires e < |query.effects| <= EFFECTS && IsWholeArmors(data, t) && AllFor(data, query, e, load) && load.AreJewels(data)
    requires Represents(data, query, plan, Multiplied(data, t), load.ids, load.body) && (plan.body == NO_JEWELS ==> load.body == [])
    requires plan.FitsIn(FreeSlots(data, t), BodySpace(data, t), Multiplied(data, t))
    ensures JewelsFit(data, query, t, load.ids, load.body)
  {
    hide Multiplied, SizesOf, JewelPoints, Plan.Points, FreeSlots, BodySpace, Fits, Usable, JewelValid, Slots.Weight;
  }

  /** A key with which a set comes through belongs to jewels with which it comes through. */
  lemma {:induction false} ReachedComes(data: Data, query: Query, t: seq<int>, s: nat, jewelKey: Signature)
    returns (load: Load, plan: Plan)
    requires Ready(data, query) && 1 <= s <= |query.effects| <= EFFECTS && NoOverflow(data, query)
    requires Reached(data, query, t, s, jewelKey)
    ensures Comes(data, query, t, s, load) && IsAllowed(data, query, t) && IsWholeArmors(data, t)
    ensures load.AreJewels(data) && JewelsFit(data, query, t, load.ids, load.body)
    ensures plan.From(QueryClasses(data, query)) && Represents(data, query, plan, Multiplied(data, t), load.ids, load.body)
    ensures jewelKey == plan.Total(Multiplied(data, t))
    decreases s, 3
  {
    hide NoOverflow, Data.Valid, Query.Valid, AllHelp, EffectClasses, QueryClasses, Choice.From, SizesOf, JewelPoints, Plan.Points,
      Plan.Total, SetPoints, FreeSlots, BodySpace, Multiplied, PointBounds.IsAllowed, JewelsFit, KeyFor, FillAll, Represents, Plan.FitsIn,
      InverseKey, Satisfy, Or, IsTest, ReachedMore, ComesWith, AllLikely, OthersHopeful, Enough, AllFor, AllEnough;
    ReachedAllowed(data, query, t, s, jewelKey);
    AllowedArmors(data, query, t);
    if s == 1 {
      load, plan := FirstComes(data, query, t, jewelKey);
    } else {
      load, plan := MoreComes(data, query, t, s - 1, s - 1, jewelKey);
    }
    StageTest(data, query, t, s);
    BelowMore(s, Covered(query, s));
    TestMeans(data, query, t, load, plan, Below(Covered(query, s)), Below(s), KeyFor(data, query, t, s), InverseKey(query.effects, s));
    if s > FoundationCount(query) {
      HopefulAll(data, query, t, s - 1);
    }
  }

  lemma {:induction false} HopefulAll(data: Data, query: Query, t: seq<int>, s: nat)
    requires Ready(data, query) && 1 <= s && FoundationCount(query) <= s < |query.effects| <= EFFECTS && NoOverflow(data, query)
    requires IsAllowed(data, query, t) && IsWholeArmors(data, t) && OthersHopeful(data, query, t, s)
    ensures AllLikely(data, query, t, s)
    decreases s, 6
  {
    hide NoOverflow, Ready, Likely, Hopeful, PointBounds.IsAllowed;
    forall i | s < i < |query.effects|
      ensures Likely(data, query, t, s, i)
    {
      HopefulLikely(data, query, t, s, i);
    }
  }

  lemma BelowMore(a: nat, b: nat)
    requires a <= b
    ensures Below(a) <= Below(b)
  {
  }

  lemma FirstComes(data: Data, query: Query, t: seq<int>, jewelKey: Signature) returns (load: Load, plan: Plan)
    requires Ready(data, query) && 1 <= |query.effects| <= EFFECTS && NoOverflow(data, query) && Reached(data, query, t, 1, jewelKey)
    ensures IsWholeArmors(data, t) && AllFor(data, query, 0, load) && load.AreJewels(data)
    ensures JewelsFit(data, query, t, load.ids, load.body)
    ensures plan.From(QueryClasses(data, query)) && Represents(data, query, plan, Multiplied(data, t), load.ids, load.body)
    ensures jewelKey == plan.Total(Multiplied(data, t))
  {
    hide NoOverflow, Data.Valid, Query.Valid, Reached, QueryClasses, EffectClasses, Choice.From, SizesOf, JewelPoints, Plan.Points, SetPoints,
      FreeSlots, BodySpace, Multiplied, PointBounds.IsAllowed, Plan.FitsIn, GetPoints, AsChar, KeySlots, BodySlotSum, Represents, AllFor,
      JewelsFit, Slots.Weight, Plan.Total;
    plan := FirstPlan(data, query, t, jewelKey);
    PlanFrom(data, query, 0, plan);
    load := LoadOf(data, query, 0, Multiplied(data, t), plan);
    LoadFits(data, query, t, 0, load, plan);
  }

  lemma {:induction false} MoreComes(data: Data, query: Query, t: seq<int>, s: nat, i: nat, jewelKey: Signature)
    returns (load: Load, plan: Plan)
    requires Ready(data, query) && 1 <= s < |query.effects| <= EFFECTS && i < |query.effects| && NoOverflow(data, query)
    requires IsAllowed(data, query, t) && IsWholeArmors(data, t) && ReachedMore(data, query, t, s, i, jewelKey)
    ensures ComesWith(data, query, t, s, i, load) && load.AreJewels(data) && JewelsFit(data, query, t, load.ids, load.body)
    ensures plan.From(QueryClasses(data, query)) && Represents(data, query, plan, Multiplied(data, t), load.ids, load.body)
    ensures jewelKey == plan.Total(Multiplied(data, t))
    decreases s, 4
  {
    hide NoOverflow, Data.Valid, Query.Valid, QueryClasses, EffectClasses, Choice.From, Plan.Total, Plan.Points, FreeSlots, BodySpace,
      Multiplied, PointBounds.IsAllowed, JewelsFit, Represents, Plan.FitsIn, Reached, Comes, IsMore, AllFor, FillLeft, KeyFor, Add,
      GetPoints, AsChar, KeySlots, BodySlotSum;
    var existing :| Reached(data, query, t, s, existing)
      && ExtendsBy(EffectClasses(data, query, i), KeyFor(data, query, t, s), existing, jewelKey);
    var more :| more in FillLeft(EffectClasses(data, query, i), KeyFor(data, query, t, s), existing) && jewelKey == Add(existing, more);
    var a, p := ReachedComes(data, query, t, s, existing);
    var q := MorePlan(data, query, t, s, i, existing, more);
    var b := LoadOf(data, query, i, Multiplied(data, t), q);
    TotalReadsBack(data, query, t, a, p);
    MoreFits(data, query, t, i, a, b, p, q);
    PlanFrom(data, query, i, q);
    LeftFits(data, query, t, i, a, b, p, q);
    AllowedBounds(data, query, t);
    PlanExtends(p, q, FreeSlots(data, t), BodySpace(data, t), Multiplied(data, t));
    JoinPlans(p, q, QueryClasses(data, query), FreeSlots(data, t), BodySpace(data, t), Multiplied(data, t));
    load, plan := Both(a, b), p.Plus(q);
  }

  /** The slots of the key are those of the plan. */
  lemma TotalReadsBack(data: Data, query: Query, t: seq<int>, load: Load, plan: Plan)
    requires Ready(data, query) && |query.effects| <= EFFECTS && IsAllowed(data, query, t) && IsWholeArmors(data, t)
    requires JewelsFit(data, query, t, load.ids, load.body)
    requires plan.From(QueryClasses(data, query)) && Represents(data, query, plan, Multiplied(data, t), load.ids, load.body)
    ensures KeySlots(plan.Total(Multiplied(data, t))) == plan.free.Counts()
    ensures BodySlotSum(plan.Total(Multiplied(data, t))) == plan.body.Counts().Weight()
  {
    hide JewelsFit, FreeSlots, BodySpace, Multiplied, Represents, Query.Valid, Data.Valid, PointBounds.IsAllowed, Plan.Total, QueryClasses,
      KeySlots, BodySlotSum, GetPoints, IsJewelKey, Choice.From, Plan.FitsIn;
    RepresentedFits(data, query, t, plan, load.ids, load.body);
    AllowedBounds(data, query, t);
    QueryKeysAreJewelKeys(data, query);
    PlanReadsBack(plan, Multiplied(data, t), QueryClasses(data, query), FreeSlots(data, t), BodySpace(data, t));
  }

  lemma MoreFits(data: Data, query: Query, t: seq<int>, i: nat, a: Load, b: Load, p: Plan, q: Plan)
    requires |query.effects| <= EFFECTS && IsWholeArmors(data, t) && i < |query.effects| && AllFor(data, query, i, b)
    requires Represents(data, query, p, Multiplied(data, t), a.ids, a.body)
    requires Represents(data, query, q, Multiplied(data, t), b.ids, b.body) && (q.body == NO_JEWELS ==> b.body == [])
    requires q.FitsIn(Residual(FreeSlots(data, t), p.free.Counts()), BodySpace(data, t) - p.body.Counts().Weight(), Multiplied(data, t))
    ensures IsMore(data, query, t, i, a, b)
  {
    hide AllFor, FreeSlots, BodySpace, Multiplied, SizesOf, JewelPoints, Plan.Points, Fits, Residual, Slots.Weight;
  }

  lemma {:induction false} HopefulLikely(data: Data, query: Query, t: seq<int>, s: nat, i: nat)
    requires Ready(data, query) && 1 <= s && FoundationCount(query) <= s < i < |query.effects| <= EFFECTS && NoOverflow(data, query)
    requires IsAllowed(data, query, t) && IsWholeArmors(data, t) && Hopeful(data, query, t, s, i)
    ensures Likely(data, query, t, s, i)
    decreases s, 5
  {
    hide NoOverflow, Data.Valid, Query.Valid, QueryClasses, Choice.From, Plan.Total, Multiplied, PointBounds.IsAllowed, JewelsFit, Represents,
      Reached, ReachedMore, Comes, ComesWith, Alike, AllEnough, KeyFor, IsTest, Satisfy, Or, AddPoints, InverseWith, SetPoints;
    var u, jewelKey := HopeOf(data, query, t, s, i);
    KeyAlike(data, query, t, u, s);
    var own :| Reached(data, query, u, s, own);
    var w, wPlan := ReachedComes(data, query, u, s, own);
    assert Companion(data, query, t, u, s);
    var load, plan := MoreComes(data, query, t, s, i, jewelKey);
    AlikeFit(data, query, t, u, s, load);
    HopeTest(data, query, u, s, i);
    TestMeans(data, query, u, load, plan, Below(s) + {i}, Below(s) + {i},
              AddPoints(KeyFor(data, query, u, s), i, SetPoints(data, u, query.effects[i].id)), InverseWith(query.effects, s, i));
  }

  /** The mate and the key that make an effect hopeful. */
  lemma HopeOf(data: Data, query: Query, t: seq<int>, s: nat, i: nat) returns (u: seq<int>, jewelKey: Signature)
    requires 1 <= s <= i < |query.effects| <= EFFECTS && IsAllowed(data, query, t) && Hopeful(data, query, t, s, i)
    ensures AreArmors(data, u) && u != [] && IsAllowed(data, query, u) && KeyFor(data, query, u, s) == KeyFor(data, query, t, s)
    ensures Alive(data, query, u, s) && ReachedMore(data, query, t, s, i, jewelKey)
    ensures Satisfy(Or(AddPoints(KeyFor(data, query, t, s), i, SetPoints(data, u, query.effects[i].id)), jewelKey),
                    InverseWith(query.effects, s, i))
  {
    hide ReachedMore, Reached, KeyFor, SetPoints, Satisfy, Or, AddPoints, InverseWith, Alive;
    u, jewelKey :| Mate(data, query, t, u, s) && ReachedMore(data, query, t, s, i, jewelKey) &&
      Satisfy(Or(AddPoints(KeyFor(data, query, t, s), i, SetPoints(data, u, query.effects[i].id)), jewelKey),
              InverseWith(query.effects, s, i));
  }

  /** For any number of effects, exactly the armors with such jewels come through. */
  lemma AliveInJewels(data: Data, query: Query, t: seq<int>, s: nat)
    requires Ready(data, query) && 1 <= s <= |query.effects| <= EFFECTS && NoOverflow(data, query)
    ensures Alive(data, query, t, s) <==> SomeComes(data, query, t, s)
  {
    if Alive(data, query, t, s) {
      AliveComes(data, query, t, s);
    }
    if SomeComes(data, query, t, s) {
      ComesAlive(data, query, t, s);
    }
  }

  lemma AliveComes(data: Data, query: Query, t: seq<int>, s: nat)
    requires Ready(data, query) && 1 <= s <= |query.effects| <= EFFECTS && NoOverflow(data, query) && Alive(data, query, t, s)
    ensures SomeComes(data, query, t, s)
  {
    hide NoOverflow, Ready, Reached, Comes, PointBounds.IsAllowed, Plan.Total, Represents, Choice.From, Multiplied, JewelsFit;
    var jewelKey :| Reached(data, query, t, s, jewelKey);
    var load, plan := ReachedComes(data, query, t, s, jewelKey);
  }

  lemma ComesAlive(data: Data, query: Query, t: seq<int>, s: nat)
    requires Ready(data, query) && 1 <= s <= |query.effects| <= EFFECTS && NoOverflow(data, query) && SomeComes(data, query, t, s)
    ensures Alive(data, query, t, s)
  {
    hide NoOverflow, Ready, Reached, Comes, PointBounds.IsAllowed, Plan.Total, Represents, Choice.From, Multiplied, JewelsFit;
    var load: Load :| Comes(data, query, t, s, load);
    var plan := ComesReached(data, query, t, s, load);
  }
}
