/** What the armors of a whole set add up to, and that its signature packs exactly that. */
module SetTotals {
  import opened Packing
  import opened Signatures
  import opened Datasets
  import opened Keys
  import opened FoundationSteps

  function TorsoUps(data: Data, t: seq<int>): nat
    requires AreArmors(data, t)
  {
    if t == [] then 0 else (if data.armors[t[0]].IsTorsoUp() then 1 else 0) + TorsoUps(data, t[1..])
  }

  /** How many of the armors have exactly `size` slots. */
  function PartsWith(data: Data, t: seq<int>, size: int): nat
    requires AreArmors(data, t)
  {
    if t == [] then 0 else (if data.armors[t[0]].slots == size then 1 else 0) + PartsWith(data, t[1..], size)
  }

  function SlotsOf(data: Data, t: seq<int>): Slots
    requires AreArmors(data, t)
  {
    Slots(PartsWith(data, t, 1), PartsWith(data, t, 2), PartsWith(data, t, 3))
  }

  /** The armors' own points in a skill, each counted once. */
  function ArmorPoints(data: Data, t: seq<int>, skill: int): int
    requires AreArmors(data, t)
  {
    if t == [] then 0 else PointsOf(data.armors[t[0]].effects, skill) + ArmorPoints(data, t[1..], skill)
  }

  /** How often the body piece of the set counts. */
  function Multiplied(data: Data, t: seq<int>): nat
    requires AreArmors(data, t)
  {
    1 + TorsoUps(data, t)
  }

  /** The armors' points in a skill; the body piece comes first. */
  function SetPoints(data: Data, t: seq<int>, skill: int): int
    requires AreArmors(data, t) && t != []
  {
    Scaled(PointsOf(data.armors[t[0]].effects, skill), Multiplied(data, t)) + ArmorPoints(data, t[1..], skill)
  }

  /** The slots that jewels of multiplicity one can use. */
  function FreeSlots(data: Data, t: seq<int>): Slots
    requires AreArmors(data, t) && t != []
  {
    if Multiplied(data, t) > 1 then SlotsOf(data, t[1..]) else SlotsOf(data, t)
  }

  /** The slots of a body piece that counts several times. */
  function BodySpace(data: Data, t: seq<int>): int
    requires AreArmors(data, t) && t != []
  {
    if Multiplied(data, t) > 1 then data.armors[t[0]].slots else 0
  }

  function SetFields(data: Data, effects: seq<Effect>, t: seq<int>): (f: Fields)
    requires AreArmors(data, t) && t != []
    ensures f.Valid()
  {
    Fields(FreeSlots(data, t), if Multiplied(data, t) > 1 then Single(data.armors[t[0]].slots) else NO_SLOTS,
           Multiplied(data, t),
           seq(EFFECTS, e requires 0 <= e < EFFECTS => if e < |effects| then SetPoints(data, t, effects[e].id) else 0))
  }

  // ---------- The parts below the body ----------

  function LowerFields(data: Data, effects: seq<Effect>, t: seq<int>): (f: Fields)
    requires AreArmors(data, t)
    ensures f.Valid()
  {
    Fields(SlotsOf(data, t), NO_SLOTS, TorsoUps(data, t),
           seq(EFFECTS, e requires 0 <= e < EFFECTS => if e < |effects| then ArmorPoints(data, t, effects[e].id) else 0))
  }

  /** No skill asked for has the id that marks torso-up. */
  predicate Asks(effects: seq<Effect>) {
    |effects| <= EFFECTS && forall e :: 0 <= e < |effects| ==> effects[e].id != 0
  }

  lemma ArmorFieldsAre(data: Data, effects: seq<Effect>, id: int)
    requires data.Valid() && data.IsArmor(id) && Asks(effects)
    ensures ArmorSignature(data.armors[id], effects) == Pack(ArmorFields(data.armors[id], effects))
    ensures var armor, f := data.armors[id], ArmorFields(data.armors[id], effects);
      && f.Valid() && f.slots == Single(armor.slots) && f.body == NO_SLOTS
      && f.multiplier == (if armor.IsTorsoUp() || armor.part == BODY then 1 else 0)
      && forall e :: 0 <= e < EFFECTS ==> f.points[e] == if e < |effects| then PointsOf(armor.effects, effects[e].id) else 0
  {
    var armor := data.armors[id];
    ArmorPacks(armor, effects);
    if armor.IsTorsoUp() {
      forall e | 0 <= e < |effects|
        ensures PointsOf(armor.effects, effects[e].id) == 0
      {
        PointsOfDistinct(armor.effects, effects[e].id);
      }
    }
  }

  lemma SingleCounts(slots: int)
    ensures Single(slots) == Slots(if slots == 1 then 1 else 0, if slots == 2 then 1 else 0, if slots == 3 then 1 else 0)
  {
  }

  lemma FirstArmor(data: Data, t: seq<int>)
    requires AreArmors(data, t) && t != []
    ensures TorsoUps(data, t) == (if data.armors[t[0]].IsTorsoUp() then 1 else 0) + TorsoUps(data, t[1..])
    ensures PartsWith(data, t, 1) == (if data.armors[t[0]].slots == 1 then 1 else 0) + PartsWith(data, t[1..], 1)
    ensures PartsWith(data, t, 2) == (if data.armors[t[0]].slots == 2 then 1 else 0) + PartsWith(data, t[1..], 2)
    ensures PartsWith(data, t, 3) == (if data.armors[t[0]].slots == 3 then 1 else 0) + PartsWith(data, t[1..], 3)
  {
  }

  lemma FieldsSum(f: Fields, g: Fields, h: Fields)
    requires f.Valid() && g.Valid() && h.Valid()
    requires f.slots.one + g.slots.one == h.slots.one && f.slots.two + g.slots.two == h.slots.two
    requires f.slots.three + g.slots.three == h.slots.three
    requires f.body.one + g.body.one == h.body.one && f.body.two + g.body.two == h.body.two
    requires f.body.three + g.body.three == h.body.three
    requires f.multiplier + g.multiplier == h.multiplier
    requires forall e :: 0 <= e < EFFECTS ==> f.points[e] + g.points[e] == h.points[e]
    ensures f.Plus(g) == h
  {
    assert f.Plus(g).points == h.points;
  }

  lemma LowerStep(data: Data, effects: seq<Effect>, t: seq<int>)
    requires data.Valid() && AreArmors(data, t) && Asks(effects) && t != [] && data.armors[t[0]].part != BODY
    ensures AreArmors(data, t[1..]) && ArmorFields(data.armors[t[0]], effects).Valid()
    ensures ArmorFields(data.armors[t[0]], effects).Plus(LowerFields(data, effects, t[1..])) == LowerFields(data, effects, t)
  {
    hide Single, PointsOf, ArmorFields, Data.Valid, LowerFields, Armor.IsTorsoUp, Fields.Plus;
    ArmorFieldsAre(data, effects, t[0]);
    SingleCounts(data.armors[t[0]].slots);
    LowerSum(data, effects, t, ArmorFields(data.armors[t[0]], effects));
  }

  lemma LowerSum(data: Data, effects: seq<Effect>, t: seq<int>, f: Fields)
    requires AreArmors(data, t) && t != [] && f.Valid() && |effects| <= EFFECTS
    requires var armor := data.armors[t[0]];
      && f.slots.one == (if armor.slots == 1 then 1 else 0) && f.slots.two == (if armor.slots == 2 then 1 else 0)
      && f.slots.three == (if armor.slots == 3 then 1 else 0)
      && f.body == NO_SLOTS && f.multiplier == (if armor.IsTorsoUp() then 1 else 0)
      && forall e :: 0 <= e < EFFECTS ==> f.points[e] == if e < |effects| then PointsOf(armor.effects, effects[e].id) else 0
    ensures f.Plus(LowerFields(data, effects, t[1..])) == LowerFields(data, effects, t)
  {
    hide PointsOf, PartsWith, TorsoUps, Fields.Plus, Armor.IsTorsoUp;
    FirstArmor(data, t);
    FieldsSum(f, LowerFields(data, effects, t[1..]), LowerFields(data, effects, t));
  }

  lemma KeyStep(scope: Scope, t: seq<int>)
    requires |scope.effects| <= EFFECTS && t != [] && AreArmors(scope.data, t)
    ensures |t| == 1 ==> scope.KeyOf(t) == ArmorSignature(scope.data.armors[t[0]], scope.effects)
    ensures |t| > 1 ==>
      var own := ArmorSignature(scope.data.armors[t[0]], scope.effects);
      && AreArmors(scope.data, t[1..])
      && var rest := scope.KeyOf(t[1..]);
         scope.KeyOf(t) == Add(if scope.data.armors[t[0]].part == BODY then BodyRefactor(own, Multiplier(rest) + 1) else own, rest)
  {
    hide Add, BodyRefactor, ArmorSignature, Multiplier;
  }

  lemma {:induction false} LowerKey(scope: Scope, t: seq<int>)
    requires scope.Valid() && Asks(scope.effects) && t != [] && AreArmors(scope.data, t)
    requires forall i :: 0 <= i < |t| ==> scope.data.armors[t[i]].part != BODY
    ensures AreArmors(scope.data, t) && scope.KeyOf(t) == Pack(LowerFields(scope.data, scope.effects, t))
  {
    hide Add, Pack, ArmorSignature, LowerFields, ArmorFields, Scope.KeyOf, Data.Valid, Fields.Plus, BodyRefactor;
    KeyStep(scope, t);
    var data, effects := scope.data, scope.effects;
    ArmorFieldsAre(data, effects, t[0]);
    LowerStep(data, effects, t);
    if |t| == 1 {
      NothingLower(data, effects, ArmorFields(data.armors[t[0]], effects));
      assert t[1..] == [];
    } else {
      LowerKey(scope, t[1..]);
      PackPlus(ArmorFields(data.armors[t[0]], effects), LowerFields(data, effects, t[1..]));
    }
  }

  lemma NothingLower(data: Data, effects: seq<Effect>, f: Fields)
    requires f.Valid() && |effects| <= EFFECTS
    ensures f.Plus(LowerFields(data, effects, [])) == f
  {
  }

  // ---------- The whole set ----------

  lemma {:induction false} TorsoUpsBound(data: Data, t: seq<int>, low: int)
    requires data.Valid() && AreArmors(data, t) && low >= 0
    requires forall i :: 0 <= i < |t| ==> data.armors[t[i]].part == low + |t| - 1 - i
    ensures TorsoUps(data, t) <= |t| && (low + |t| > GEAR ==> TorsoUps(data, t) <= if low < GEAR then GEAR - low else 0)
  {
    if t != [] {
      assert data.armors[t[0]].part == low + |t| - 1 - 0;
      assert forall i :: 0 <= i < |t[1..]| ==> t[1..][i] == t[i + 1];
      TorsoUpsBound(data, t[1..], low);
    }
  }

  lemma {:induction false} PartsBound(data: Data, t: seq<int>)
    requires AreArmors(data, t)
    ensures PartsWith(data, t, 1) + PartsWith(data, t, 2) + PartsWith(data, t, 3) <= |t|
  {
    if t != [] {
      PartsBound(data, t[1..]);
    }
  }

  /** A set with one armor for every part, the body piece first. */
  ghost predicate IsWhole(data: Data, t: seq<int>) {
    |t| == PART_NUM && AreArmors(data, t) && forall i :: 0 <= i < PART_NUM ==> data.armors[t[i]].part == PART_NUM - 1 - i
  }

  lemma WholeBounds(data: Data, t: seq<int>)
    requires data.Valid() && IsWhole(data, t)
    ensures 1 <= Multiplied(data, t) <= 5 && TorsoUps(data, t) == TorsoUps(data, t[1..])
    ensures !data.armors[t[0]].IsTorsoUp() && data.armors[t[0]].part == BODY && 0 <= data.armors[t[0]].slots <= 3
    ensures forall i :: 0 <= i < |t[1..]| ==> data.armors[t[1..][i]].part != BODY
    ensures LowerFields(data, [], t[1..]).InRange() && SetFields(data, [], t).InRange()
    ensures FreeSlots(data, t).Valid() && FreeSlots(data, t).Weight() <= 21 && FreeSlots(data, t).two + FreeSlots(data, t).three <= 7
  {
    assert data.armors[t[0]].part == BODY;
    assert ValidArmor(data.armors[t[0]]);
    TorsoUpsBound(data, t, 0);
    PartsBound(data, t);
    PartsBound(data, t[1..]);
    SingleCounts(data.armors[t[0]].slots);
  }

  lemma BodyPoints(data: Data, effects: seq<Effect>, t: seq<int>)
    requires data.Valid() && IsWhole(data, t) && Asks(effects) && Multiplied(data, t) == 1 + TorsoUps(data, t[1..])
    requires data.armors[t[0]].part == BODY && !data.armors[t[0]].IsTorsoUp()
    ensures var f, g, m := ArmorFields(data.armors[t[0]], effects), LowerFields(data, effects, t[1..]), Multiplied(data, t);
            f.Valid() && f.Refactored(m).Valid() && f.Refactored(m).Plus(g) == SetFields(data, effects, t)
  {
    hide Single, PointsOf, ArmorFields, Data.Valid, LowerFields, SetFields, Fields.Plus, Multiplied, Armor.IsTorsoUp;
    ArmorFieldsAre(data, effects, t[0]);
    var f := ArmorFields(data.armors[t[0]], effects);
    BodySum(data, effects, t, f);
  }

  lemma BodySum(data: Data, effects: seq<Effect>, t: seq<int>, f: Fields)
    requires AreArmors(data, t) && t != [] && f.Valid() && |effects| <= EFFECTS && Multiplied(data, t) == 1 + TorsoUps(data, t[1..])
    requires var armor := data.armors[t[0]];
      && f.slots == Single(armor.slots) && f.body == NO_SLOTS && f.multiplier == 1
      && forall e :: 0 <= e < EFFECTS ==> f.points[e] == if e < |effects| then PointsOf(armor.effects, effects[e].id) else 0
    ensures f.Refactored(Multiplied(data, t)).Plus(LowerFields(data, effects, t[1..])) == SetFields(data, effects, t)
  {
    hide PointsOf, PartsWith, TorsoUps, Fields.Plus, Armor.IsTorsoUp, ArmorPoints, Single;
    var m := Multiplied(data, t);
    FirstArmor(data, t);
    SingleCounts(data.armors[t[0]].slots);
    assert forall e :: 0 <= e < EFFECTS ==> f.Refactored(m).points[e] == Scaled(f.points[e], m);
    FieldsSum(f.Refactored(m), LowerFields(data, effects, t[1..]), SetFields(data, effects, t));
  }

  /** The key that merging the forests gives a whole set packs its slots, its multiplier and its true point totals. */
  lemma WholeKey(scope: Scope, t: seq<int>)
    requires scope.Valid() && Asks(scope.effects) && IsWhole(scope.data, t)
    ensures AreArmors(scope.data, t) && scope.KeyOf(t) == Pack(SetFields(scope.data, scope.effects, t))
  {
    hide Add, Pack, ArmorSignature, LowerFields, ArmorFields, BodyRefactor, SetFields, Single, Scope.KeyOf, Fields.Plus;
    KeyStep(scope, t);
    var data, effects := scope.data, scope.effects;
    WholeBounds(data, t);
    ArmorFieldsAre(data, effects, t[0]);
    LowerKey(scope, t[1..]);
    var f, g, m := ArmorFields(data.armors[t[0]], effects), LowerFields(data, effects, t[1..]), Multiplied(data, t);
    LowerMultiplier(data, effects, t[1..]);
    SingleCounts(data.armors[t[0]].slots);
    PackRefactored(f, m);
    BodyPoints(data, effects, t);
    PackPlus(f.Refactored(m), g);
  }

  lemma LowerMultiplier(data: Data, effects: seq<Effect>, t: seq<int>)
    requires AreArmors(data, t) && LowerFields(data, [], t).InRange()
    ensures Multiplier(Pack(LowerFields(data, effects, t))) == TorsoUps(data, t)
  {
    UnpackFields(LowerFields(data, effects, t));
  }

  lemma SetFieldsAre(data: Data, effects: seq<Effect>, t: seq<int>)
    requires AreArmors(data, t) && t != [] && SetFields(data, [], t).InRange() && 0 <= data.armors[t[0]].slots <= 3
    ensures var f := SetFields(data, effects, t);
      && f.InRange() && f.slots == FreeSlots(data, t) && f.multiplier == Multiplied(data, t)
      && f.body.Weight() == BodySpace(data, t) <= 3
      && forall e :: 0 <= e < EFFECTS ==> f.points[e] == if e < |effects| then SetPoints(data, t, effects[e].id) else 0
  {
    hide FreeSlots, Multiplied, SetPoints, Single, Slots.Weight, Fields.InRange, Pack;
    SingleWeight(data.armors[t[0]].slots);
    SetFieldsRange(data, effects, t);
  }

  lemma SingleWeight(slots: int)
    ensures 0 <= slots <= 3 ==> Single(slots).Weight() == slots
    ensures NO_SLOTS.Weight() == 0
  {
  }

  lemma SetFieldsRange(data: Data, effects: seq<Effect>, t: seq<int>)
    requires AreArmors(data, t) && t != [] && SetFields(data, [], t).InRange()
    ensures SetFields(data, effects, t).InRange()
  {
    hide FreeSlots, Multiplied, SetPoints, Single;
  }

  /** What the engine reads back from the key of a whole set. */
  lemma WholeReadsBack(data: Data, effects: seq<Effect>, t: seq<int>)
    requires data.Valid() && IsWhole(data, t) && |effects| <= EFFECTS
    ensures var key := Pack(SetFields(data, effects, t));
      && KeySlots(key) == FreeSlots(data, t)
      && Multiplier(key) == Multiplied(data, t)
      && BodySlotSum(key) == BodySpace(data, t)
      && forall e :: 0 <= e < EFFECTS ==>
           GetPoints(key, e) == AsChar(if e < |effects| then SetPoints(data, t, effects[e].id) else 0)
  {
    hide SetFields, Pack, KeySlots, Multiplier, BodySlotSum, BodySlots, GetPoints, SetPoints, Data.Valid;
    WholeBounds(data, t);
    SetFieldsAre(data, effects, t);
    UnpackFields(SetFields(data, effects, t));
  }
}
