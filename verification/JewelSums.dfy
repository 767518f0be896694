/** Sums of jewel signatures. A jewel multiset is given by three sequences of keys, one per jewel size. */
module JewelSums {
  import opened Packing
  import opened Signatures

  function Sum(keys: seq<Signature>): Signature {
    if keys == [] then ZERO else Add(keys[0], Sum(keys[1..]))
  }

  lemma {:induction false} SumConcat(a: seq<Signature>, b: seq<Signature>)
    ensures Sum(a + b) == Add(Sum(a), Sum(b))
  {
    if a == [] {
      assert a + b == b;
      AddZero(Sum(b));
    } else {
      assert (a + b)[1..] == a[1..] + b;
      SumConcat(a[1..], b);
      AddAssociates(a[0], Sum(a[1..]), Sum(b));
    }
  }

  lemma SumSingle(key: Signature)
    ensures Sum([key]) == key
  {
    AddZero(key);
  }

  /** Any key of a sum may be taken first. */
  lemma SumTakeOut(keys: seq<Signature>, n: nat)
    requires n < |keys|
    ensures Sum(keys) == Add(keys[n], Sum(keys[..n] + keys[n + 1..]))
  {
    hide Add;
    var front, back := keys[..n], keys[n + 1..];
    assert keys == front + ([keys[n]] + back);
    SumConcat(front, [keys[n]] + back);
    SumConcat([keys[n]], back);
    SumSingle(keys[n]);
    SumConcat(front, back);
    AddAssociates(Sum(front), keys[n], Sum(back));
    AddCommutes(Sum(front), keys[n]);
    AddAssociates(keys[n], Sum(front), Sum(back));
  }

  /** Every key of the list is one of the class. */
  predicate AllIn(keys: seq<Signature>, class_: set<Signature>) {
    forall n :: 0 <= n < |keys| ==> keys[n] in class_
  }

  /** One choice of jewels: the keys of its 1-, 2- and 3-jewels. */
  datatype Choice = Choice(ones: seq<Signature>, twos: seq<Signature>, threes: seq<Signature>)
  {
    function Counts(): Slots {
      Slots(|ones|, |twos|, |threes|)
    }

    function Total(): Signature {
      Add(Add(Sum(ones), Sum(twos)), Sum(threes))
    }

    function Plus(other: Choice): Choice {
      Choice(ones + other.ones, twos + other.twos, threes + other.threes)
    }

    /** Every jewel comes from the class of its size. */
    predicate From(classes: seq<set<Signature>>)
      requires |classes| == 4
    {
      AllIn(ones, classes[1]) && AllIn(twos, classes[2]) && AllIn(threes, classes[3])
    }
  }

  const NO_JEWELS := Choice([], [], [])

  lemma NothingTotal()
    ensures NO_JEWELS.Total() == ZERO
  {
    AddZero(ZERO);
  }

  lemma FromPlus(a: Choice, b: Choice, classes: seq<set<Signature>>)
    requires |classes| == 4 && a.From(classes) && b.From(classes)
    ensures a.Plus(b).From(classes)
  {
  }

  // ---------- What a sum of jewel keys packs ----------

  /** A key made for one jewel: its slot size, no body slots, no torso multiplier. */
  predicate IsJewelKey(key: Signature, size: int) {
    key[..EFFECTS_BEGIN] == [if size == 1 then 1 else 0, if size == 2 then 1 else if size == 3 then 16 else 0, 0]
  }

  predicate AreJewelKeys(classes: seq<set<Signature>>)
    requires |classes| == 4
  {
    forall size, key :: 1 <= size <= 3 && key in classes[size] ==> IsJewelKey(key, size)
  }

  function PointSum(keys: seq<Signature>, effect: nat): int
    requires effect < EFFECTS
  {
    if keys == [] then 0 else GetPoints(keys[0], effect) + PointSum(keys[1..], effect)
  }

  lemma {:induction false} PointSumConcat(a: seq<Signature>, b: seq<Signature>, effect: nat)
    requires effect < EFFECTS
    ensures PointSum(a + b, effect) == PointSum(a, effect) + PointSum(b, effect)
  {
    if a == [] {
      assert a + b == b;
    } else {
      assert (a + b)[1..] == a[1..] + b;
      PointSumConcat(a[1..], b, effect);
    }
  }

  /** `n` jewels of one size. */
  function Several(size: int, n: int): Slots {
    if size == 1 then Slots(n, 0, 0) else if size == 2 then Slots(0, n, 0) else Slots(0, 0, n)
  }

  lemma JewelKeyPacks(key: Signature, size: int)
    requires 1 <= size <= 3 && IsJewelKey(key, size)
    ensures key == Pack(Fields(Single(size), NO_SLOTS, 0, key[EFFECTS_BEGIN..]))
  {
    var packed := Pack(Fields(Single(size), NO_SLOTS, 0, key[EFFECTS_BEGIN..]));
    assert forall i :: 0 <= i < EFFECTS_BEGIN ==> key[i] == key[..EFFECTS_BEGIN][i] == packed[i];
    assert forall i :: EFFECTS_BEGIN <= i < BYTES ==> key[i] == packed[i];
  }

  function ListFields(keys: seq<Signature>, size: int): Fields {
    Fields(Several(size, |keys|), NO_SLOTS, 0, seq(EFFECTS, e requires 0 <= e < EFFECTS => PointSum(keys, e)))
  }

  lemma {:induction false} SumPacks(keys: seq<Signature>, size: int)
    requires 1 <= size <= 3 && forall n :: 0 <= n < |keys| ==> IsJewelKey(keys[n], size)
    ensures Sum(keys) == Pack(ListFields(keys, size))
  {
    if keys == [] {
      assert ListFields(keys, size) == NO_FIELDS;
      PackNothing();
    } else {
      SumPacks(keys[1..], size);
      var head := Fields(Single(size), NO_SLOTS, 0, keys[0][EFFECTS_BEGIN..]);
      JewelKeyPacks(keys[0], size);
      PackPlus(head, ListFields(keys[1..], size));
      ListFieldsStep(keys, size);
    }
  }

  lemma ListFieldsStep(keys: seq<Signature>, size: int)
    requires 1 <= size <= 3 && keys != []
    ensures Fields(Single(size), NO_SLOTS, 0, keys[0][EFFECTS_BEGIN..]).Plus(ListFields(keys[1..], size))
         == ListFields(keys, size)
  {
  }

  function ChoicePoints(choice: Choice, effect: nat): int
    requires effect < EFFECTS
  {
    PointSum(choice.ones, effect) + PointSum(choice.twos, effect) + PointSum(choice.threes, effect)
  }

  lemma ChoicePointsPlus(a: Choice, b: Choice, effect: nat)
    requires effect < EFFECTS
    ensures ChoicePoints(a.Plus(b), effect) == ChoicePoints(a, effect) + ChoicePoints(b, effect)
  {
    PointSumConcat(a.ones, b.ones, effect);
    PointSumConcat(a.twos, b.twos, effect);
    PointSumConcat(a.threes, b.threes, effect);
  }

  function ChoiceFields(choice: Choice): Fields {
    Fields(choice.Counts(), NO_SLOTS, 0, seq(EFFECTS, e requires 0 <= e < EFFECTS => ChoicePoints(choice, e)))
  }

  /** The total of a choice packs its jewel counts and its true point totals. */
  lemma ChoicePacks(choice: Choice, classes: seq<set<Signature>>)
    requires |classes| == 4 && AreJewelKeys(classes) && choice.From(classes)
    ensures choice.Total() == Pack(ChoiceFields(choice))
  {
    var a, b, c := ListFields(choice.ones, 1), ListFields(choice.twos, 2), ListFields(choice.threes, 3);
    assert Sum(choice.ones) == Pack(a) by { SumPacks(choice.ones, 1); }
    assert Sum(choice.twos) == Pack(b) by { SumPacks(choice.twos, 2); }
    assert Sum(choice.threes) == Pack(c) by { SumPacks(choice.threes, 3); }
    PackPlus(a, b);
    PackPlus(a.Plus(b), c);
    ChoiceFieldsAdd(choice);
  }

  lemma ChoiceFieldsAdd(choice: Choice)
    ensures ListFields(choice.ones, 1).Plus(ListFields(choice.twos, 2)).Plus(ListFields(choice.threes, 3))
         == ChoiceFields(choice)
  {
  }
}
