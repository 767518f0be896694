/** Jewels for a whole armor set: those outside the body piece, and those inside, which count several times. */
module JewelPlans {
  import opened Packing
  import opened Signatures
  import opened JewelSums
  import opened SlotRecurrence
  import opened Datasets

  datatype Plan = Plan(free: Choice, body: Choice)
  {
    function Plus(other: Plan): Plan {
      Plan(free.Plus(other.free), body.Plus(other.body))
    }

    predicate From(classes: Classes) {
      free.From(classes) && body.From(classes)
    }

    /** The key a query of the cache returns for this plan. */
    function Total(multiplier: int): Signature {
      Add(free.Total(), BodyRefactor(body.Total(), multiplier))
    }

    /** The jewels fit the slots outside the body piece and the `extra` slots of the body piece;
        without a torso multiplier the body piece is one of the others. */
    predicate FitsIn(slots: Slots, extra: int, multiplier: int) {
      && Fits(slots, free.Counts())
      && body.Counts().Weight() <= extra
      && (multiplier < 2 ==> body == NO_JEWELS)
    }

    function Points(multiplier: int, effect: nat): int
      requires effect < EFFECTS
    {
      ChoicePoints(free, effect) + ChoicePoints(body, effect) * multiplier
    }

    function Packed(multiplier: int): (f: Fields)
      ensures f.Valid()
    {
      Fields(free.Counts(), body.Counts(), 0, seq(EFFECTS, e requires 0 <= e < EFFECTS => Points(multiplier, e)))
    }
  }

  ghost predicate IsPlanFor(plan: Plan, key: Signature, classes: Classes, slots: Slots, extra: int, multiplier: int) {
    plan.From(classes) && plan.FitsIn(slots, extra, multiplier) && plan.Total(multiplier) == key
  }

  lemma NothingInBody(multiplier: int)
    ensures BodyRefactor(NO_JEWELS.Total(), multiplier) == ZERO
  {
    NothingTotal();
    PackNothing();
    PackRefactored(NO_FIELDS, multiplier);
    assert NO_FIELDS.Refactored(multiplier) == NO_FIELDS;
  }

  // ---------- A query with a body piece is exact ----------

  lemma FillSound(classes: Classes, i: nat, j: nat, k: nat, extra: int, multiplier: int, key: Signature)
    returns (plan: Plan)
    requires 0 <= extra <= 3 && key in Fill(classes, i, j, k, extra, multiplier)
    ensures IsPlanFor(plan, key, classes, Slots(i, j, k), extra, multiplier)
  {
    hide Fill3, Add, BodyRefactor;
    if 2 > multiplier || extra == 0 {
      var choice := Fill3Sound(classes, i, j, k, key);
      plan := Plan(choice, NO_JEWELS);
      NothingInBody(multiplier);
      AddZero(key);
    } else {
      var a, b :| a in Fill3(classes, i, j, k) && b in BodyFill(classes, extra, multiplier) && key == Add(a, b);
      var choice := Fill3Sound(classes, i, j, k, a);
      var body := BodyFillSound(classes, extra, multiplier, b);
      plan := Plan(choice, body);
    }
  }

  lemma BodyFillSound(classes: Classes, extra: int, multiplier: int, key: Signature) returns (body: Choice)
    requires 1 <= extra <= 3 && key in BodyFill(classes, extra, multiplier)
    ensures body.From(classes) && body.Counts().Weight() <= extra && key == BodyRefactor(body.Total(), multiplier)
  {
    hide Fill3, Add, BodyRefactor;
    var s := Single(extra);
    var x :| x in Fill3(classes, s.one, s.two, s.three) && key == BodyRefactor(x, multiplier);
    body := Fill3Sound(classes, s.one, s.two, s.three, x);
  }

  lemma FillComplete(classes: Classes, i: nat, j: nat, k: nat, extra: int, multiplier: int, plan: Plan)
    requires 0 <= extra <= 3 && plan.From(classes) && plan.FitsIn(Slots(i, j, k), extra, multiplier)
    ensures plan.Total(multiplier) in Fill(classes, i, j, k, extra, multiplier)
  {
    hide Fill3, Add, BodyRefactor, Product, BodyFill, Choice.Total;
    var free, body := plan.free.Total(), BodyRefactor(plan.body.Total(), multiplier);
    assert free in Fill3(classes, i, j, k) by { Fill3Complete(classes, i, j, k, plan.free); }
    if 2 > multiplier || extra == 0 {
      NoWeight(plan.body);
      NothingInBody(multiplier);
      AddZero(free);
    } else {
      assert body in BodyFill(classes, extra, multiplier) by {
        BodyFillComplete(classes, extra, multiplier, plan.body);
      }
      ProductAdmits(Fill3(classes, i, j, k), BodyFill(classes, extra, multiplier), free, body);
    }
  }

  lemma NoWeight(choice: Choice)
    ensures choice.Counts().Weight() <= 0 ==> choice == NO_JEWELS
  {
  }

  lemma ProductAdmits(a: set<Signature>, b: set<Signature>, x: Signature, y: Signature)
    requires x in a && y in b
    ensures Add(x, y) in Product(a, b)
  {
  }

  lemma BodyFillComplete(classes: Classes, extra: int, multiplier: int, body: Choice)
    requires 1 <= extra <= 3 && body.From(classes) && body.Counts().Weight() <= extra
    ensures BodyRefactor(body.Total(), multiplier) in BodyFill(classes, extra, multiplier)
  {
    hide Fill3, Add, BodyRefactor;
    var s := Single(extra);
    Fill3Complete(classes, s.one, s.two, s.three, body);
  }

  /** A query returns the totals of all plans that fit, and no other key. */
  lemma FillExact(classes: Classes, i: nat, j: nat, k: nat, extra: int, multiplier: int, key: Signature)
    requires 0 <= extra <= 3
    ensures key in Fill(classes, i, j, k, extra, multiplier) <==>
            exists plan: Plan :: IsPlanFor(plan, key, classes, Slots(i, j, k), extra, multiplier)
  {
    if key in Fill(classes, i, j, k, extra, multiplier) {
      var plan := FillSound(classes, i, j, k, extra, multiplier, key);
    }
    if plan: Plan :| IsPlanFor(plan, key, classes, Slots(i, j, k), extra, multiplier) {
      FillComplete(classes, i, j, k, extra, multiplier, plan);
    }
  }

  // ---------- What the key of a plan packs ----------

  lemma PlanPacks(plan: Plan, multiplier: int, classes: Classes)
    requires AreJewelKeys(classes) && plan.From(classes)
    requires plan.body.Counts().Weight() <= 3 && (multiplier < 2 ==> plan.body == NO_JEWELS)
    ensures plan.Total(multiplier) == Pack(plan.Packed(multiplier))
  {
    hide Add, Pack, BodyRefactor, ChoicePoints, Plan.Packed;
    var f, g := ChoiceFields(plan.free), ChoiceFields(plan.body);
    ChoicePacks(plan.free, classes);
    if multiplier < 2 {
      NothingInBody(multiplier);
      AddZero(plan.free.Total());
      PackedWithoutBody(plan, multiplier);
    } else {
      ChoicePacks(plan.body, classes);
      PackRefactored(g, multiplier);
      PackPlus(f, g.Refactored(multiplier));
      PackedWithBody(plan, multiplier);
    }
  }

  lemma PackedWithoutBody(plan: Plan, multiplier: int)
    requires plan.body == NO_JEWELS
    ensures plan.Packed(multiplier) == ChoiceFields(plan.free)
  {
    forall e | 0 <= e < EFFECTS
      ensures plan.Points(multiplier, e) == ChoicePoints(plan.free, e)
    {
      assert ChoicePoints(plan.body, e) == 0;
    }
  }

  lemma PackedWithBody(plan: Plan, multiplier: int)
    requires multiplier >= 2
    ensures plan.Packed(multiplier) == ChoiceFields(plan.free).Plus(ChoiceFields(plan.body).Refactored(multiplier))
  {
  }

  /** The slot counts of a plan read back from its key. */
  lemma PlanReadsBack(plan: Plan, multiplier: int, classes: Classes, slots: Slots, extra: int)
    requires AreJewelKeys(classes) && plan.From(classes) && plan.FitsIn(slots, extra, multiplier) && extra <= 3
    requires slots.Valid() && slots.Weight() < 24 && slots.two + slots.three < 8
    ensures var key := plan.Total(multiplier);
            && KeySlots(key) == plan.free.Counts()
            && BodySlots(key) == plan.body.Counts()
            && BodySlotSum(key) == plan.body.Counts().Weight()
            && forall e :: 0 <= e < EFFECTS ==> GetPoints(key, e) == AsChar(plan.Points(multiplier, e))
  {
    hide Add, Pack, BodyRefactor;
    PlanPacks(plan, multiplier, classes);
    UnpackFields(plan.Packed(multiplier));
  }

  /** Totals of plans add up. */
  lemma PlanTotalPlus(a: Plan, b: Plan, multiplier: int, classes: Classes)
    requires AreJewelKeys(classes) && a.From(classes) && b.From(classes)
    requires a.Plus(b).body.Counts().Weight() <= 3
    requires multiplier < 2 ==> a.body == b.body == NO_JEWELS
    ensures a.Plus(b).Total(multiplier) == Add(a.Total(multiplier), b.Total(multiplier))
  {
    hide Add, Pack, BodyRefactor, Plan.Packed, Choice.From, Choice.Total, Plan.Total;
    FromPlus(a.free, b.free, classes);
    FromPlus(a.body, b.body, classes);
    PlanPacks(a, multiplier, classes);
    PlanPacks(b, multiplier, classes);
    PlanPacks(a.Plus(b), multiplier, classes);
    PackPlus(a.Packed(multiplier), b.Packed(multiplier));
    PlanPackedPlus(a, b, multiplier);
  }

  lemma PlanPackedPlus(a: Plan, b: Plan, multiplier: int)
    ensures a.Packed(multiplier).Plus(b.Packed(multiplier)) == a.Plus(b).Packed(multiplier)
  {
    forall e | 0 <= e < EFFECTS
      ensures a.Plus(b).Points(multiplier, e) == a.Points(multiplier, e) + b.Points(multiplier, e)
    {
      PlanPointsPlus(a, b, multiplier, e);
    }
  }

  lemma PlanPointsPlus(a: Plan, b: Plan, multiplier: int, effect: nat)
    requires effect < EFFECTS
    ensures a.Plus(b).Points(multiplier, effect) == a.Points(multiplier, effect) + b.Points(multiplier, effect)
  {
    hide ChoicePoints;
    ChoicePointsPlus(a.free, b.free, effect);
    ChoicePointsPlus(a.body, b.body, effect);
    ScaledAdds(ChoicePoints(a.body, effect), ChoicePoints(b.body, effect), multiplier);
  }

  /** Jewels for the residual join the jewels already planned. */
  lemma PlanExtends(a: Plan, b: Plan, slots: Slots, extra: int, multiplier: int)
    requires slots.Valid() && a.FitsIn(slots, extra, multiplier)
    requires b.FitsIn(Residual(slots, a.free.Counts()), extra - a.body.Counts().Weight(), multiplier)
    ensures a.Plus(b).FitsIn(slots, extra, multiplier)
  {
    hide Residual, Fits;
    ResidualSound(slots, a.free.Counts(), b.free.Counts());
  }
}
