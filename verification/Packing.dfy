/** Slots, jewels and the question which jewels fit into which slots.

    A value of type `Slots` counts 1-, 2- and 3-slots; the same type counts the
    1-, 2- and 3-jewels of a jewel multiset. */
module Packing {

  datatype Option<+T> = None | Some(value: T)

  datatype Slots = Slots(one: int, two: int, three: int)
  {
    predicate Valid() {
      one >= 0 && two >= 0 && three >= 0
    }

    function Weight(): int {
      one + 2 * two + 3 * three
    }

    function Plus(other: Slots): Slots {
      Slots(one + other.one, two + other.two, three + other.three)
    }
  }

  const NO_SLOTS := Slots(0, 0, 0)

  /** A single slot (or a single jewel) of the given size. */
  function Single(size: int): Slots {
    if size == 1 then Slots(1, 0, 0)
    else if size == 2 then Slots(0, 1, 0)
    else if size == 3 then Slots(0, 0, 1)
    else NO_SLOTS
  }

  /** The three packing inequalities. */
  predicate Fits(slots: Slots, jewels: Slots) {
    && jewels.three <= slots.three
    && jewels.two + jewels.three <= slots.two + slots.three
    && jewels.Weight() <= slots.Weight()
  }

  /** Put one jewel into the smallest slot that takes it; what is left of the slot becomes a slot. */
  function StuffIfFit(slots: Slots, size: int): Option<Slots> {
    if size == 1 then
      if slots.one > 0 then Some(slots.(one := slots.one - 1))
      else if slots.two > 0 then Some(Slots(slots.one + 1, slots.two - 1, slots.three))
      else if slots.three > 0 then Some(Slots(slots.one, slots.two + 1, slots.three - 1))
      else None
    else if size == 2 then
      if slots.two > 0 then Some(slots.(two := slots.two - 1))
      else if slots.three > 0 then Some(Slots(slots.one + 1, slots.two, slots.three - 1))
      else None
    else if size == 3 then
      if slots.three > 0 then Some(slots.(three := slots.three - 1)) else None
    else None
  }

  /** The size of the largest jewel. */
  function Largest(jewels: Slots): int {
    if jewels.three > 0 then 3 else if jewels.two > 0 then 2 else if jewels.one > 0 then 1 else 0
  }

  function Without(jewels: Slots, size: int): Slots {
    Slots(jewels.one - Single(size).one, jewels.two - Single(size).two, jewels.three - Single(size).three)
  }

  /** Put the jewels in one at a time, largest first. */
  ghost function StuffAll(slots: Slots, jewels: Slots): Option<Slots>
    requires jewels.Valid()
    decreases jewels.Weight()
  {
    var size := Largest(jewels);
    if size == 0 then Some(slots)
    else
      match StuffIfFit(slots, size)
      case None => None
      case Some(rest) => StuffAll(rest, Without(jewels, size))
  }

  /** Greedy stuffing loses nothing: placing the largest jewel in the smallest slot that takes it
      leaves slots that the other jewels fit exactly when all jewels fitted before. */
  lemma StuffLargestFirst(slots: Slots, jewels: Slots, size: int)
    requires slots.Valid() && jewels.Valid()
    requires Largest(jewels) <= size <= 3 && Single(size).Weight() == size > 0
    requires Without(jewels, size).Valid()
    ensures var rest := StuffIfFit(slots, size);
            Fits(slots, jewels) <==> rest.Some? && Fits(rest.value, Without(jewels, size))
    ensures var rest := StuffIfFit(slots, size);
            rest.Some? ==> rest.value.Valid() && rest.value.Weight() == slots.Weight() - size
  {
  }

  /** The inequalities say exactly when stuffing goes through. */
  lemma {:induction false} StuffAllIffFits(slots: Slots, jewels: Slots)
    requires slots.Valid() && jewels.Valid()
    ensures StuffAll(slots, jewels).Some? <==> Fits(slots, jewels)
    ensures StuffAll(slots, jewels).Some? ==>
              && StuffAll(slots, jewels).value.Valid()
              && StuffAll(slots, jewels).value.Weight() == slots.Weight() - jewels.Weight()
    decreases jewels.Weight()
  {
    var size := Largest(jewels);
    if size > 0 {
      StuffLargestFirst(slots, jewels, size);
      var rest := StuffIfFit(slots, size);
      if rest.Some? {
        StuffAllIffFits(rest.value, Without(jewels, size));
      }
    }
  }

  /** Slots left when the 3-jewels, then the 2-jewels are in. */
  function AfterThrees(slots: Slots, three: int): Slots {
    slots.(three := slots.three - three)
  }

  function AfterTwos(slots: Slots, two: int): Slots {
    if two <= slots.two then slots.(two := slots.two - two)
    else Slots(slots.one + two - slots.two, 0, slots.three - (two - slots.two))
  }

  function AfterOnes(slots: Slots, one: int): Slots {
    if one <= slots.one then slots.(one := slots.one - one)
    else
      var rest := one - slots.one;
      if rest <= 2 * slots.two then Slots(rest % 2, slots.two - (rest + 1) / 2, slots.three)
      else
        var rest := rest - 2 * slots.two;
        Slots(if rest % 3 == 2 then 1 else 0, if rest % 3 == 1 then 1 else 0, slots.three - (rest + 2) / 3)
  }

  /** The residual in closed form; its 3-slot count is negative when the jewels do not fit. */
  function Residual(slots: Slots, jewels: Slots): Slots {
    AfterOnes(AfterTwos(AfterThrees(slots, jewels.three), jewels.two), jewels.one)
  }

  /** The closed form is the result of stuffing one jewel at a time. */
  lemma {:induction false} ResidualIsStuffAll(slots: Slots, jewels: Slots)
    requires slots.Valid() && jewels.Valid()
    ensures Fits(slots, jewels) <==> Residual(slots, jewels).three >= 0
    ensures Fits(slots, jewels) ==> StuffAll(slots, jewels) == Some(Residual(slots, jewels))
    ensures Fits(slots, jewels) ==> Residual(slots, jewels).Valid()
    decreases jewels.Weight()
  {
    hide AfterOnes, AfterTwos, AfterThrees;
    var size := Largest(jewels);
    if size == 0 {
      NothingPlaced(slots, jewels);
    } else {
      StuffLargestFirst(slots, jewels, size);
      var rest := StuffIfFit(slots, size);
      if rest.None? {
        NotPlaced(slots, jewels, size);
      } else {
        ResidualIsStuffAll(rest.value, Without(jewels, size));
        if size > 1 {
          PlacedStep(slots, jewels, size);
        } else {
          OnlyOnes(slots, jewels);
          OnlyOnes(rest.value, Without(jewels, size));
          AfterOnesStep(slots, jewels.one);
        }
      }
    }
  }

  /** Placing a 3- or 2-jewel first changes nothing about the slots that the 3- and 2-jewels leave. */
  lemma PlacedStep(slots: Slots, jewels: Slots, size: int)
    requires slots.Valid() && jewels.Valid() && size == Largest(jewels) > 1 && StuffIfFit(slots, size).Some?
    ensures var rest, less := StuffIfFit(slots, size).value, Without(jewels, size);
            less.one == jewels.one
            && AfterTwos(AfterThrees(rest, less.three), less.two) == AfterTwos(AfterThrees(slots, jewels.three), jewels.two)
  {
  }

  lemma NothingPlaced(slots: Slots, jewels: Slots)
    requires slots.Valid() && jewels == NO_SLOTS
    ensures Residual(slots, jewels) == slots && Fits(slots, jewels)
  {
  }

  lemma NotPlaced(slots: Slots, jewels: Slots, size: int)
    requires slots.Valid() && jewels.Valid() && size == Largest(jewels) > 0 && StuffIfFit(slots, size).None?
    ensures Residual(slots, jewels).three < 0
  {
  }

  lemma OnlyOnes(slots: Slots, jewels: Slots)
    requires slots.Valid() && jewels.two == jewels.three == 0
    ensures Residual(slots, jewels) == AfterOnes(slots, jewels.one)
  {
    hide AfterOnes;
  }

  lemma AfterOnesStep(slots: Slots, one: int)
    requires slots.Valid() && one > 0 && StuffIfFit(slots, 1).Some?
    ensures AfterOnes(StuffIfFit(slots, 1).value, one - 1) == AfterOnes(slots, one)
  {
    if slots.one == 0 {
      if slots.two == 0 {
        Thirds(one);
      } else if one <= 2 * slots.two {
        Halves(one);
      }
    }
  }

  lemma Halves(n: int)
    ensures n == 2 * ((n + 1) / 2) - n % 2
  {
  }

  lemma Thirds(n: int)
    ensures 3 * ((n + 2) / 3) == if n % 3 == 0 then n else if n % 3 == 1 then n + 2 else n + 1
  {
  }

  /** What fits the residual fits the original beside the jewels already placed. */
  lemma ResidualSound(slots: Slots, jewels: Slots, more: Slots)
    requires slots.Valid() && jewels.Valid() && more.Valid()
    requires Fits(slots, jewels) && Fits(Residual(slots, jewels), more)
    ensures Fits(slots, jewels.Plus(more))
  {
    ResidualIsStuffAll(slots, jewels);
    StuffAllIffFits(slots, jewels);
    ResidualNarrows(slots, jewels);
  }

  /** Placing jewels never raises the number of 3-slots, nor of 2- and 3-slots beyond what the jewels leave. */
  lemma ResidualNarrows(slots: Slots, jewels: Slots)
    requires slots.Valid() && jewels.Valid() && Fits(slots, jewels)
    ensures var left := Residual(slots, jewels);
            && left.three <= slots.three - jewels.three
            && left.two + left.three <= slots.two + slots.three - jewels.two - jewels.three
  {
    var placed := AfterTwos(AfterThrees(slots, jewels.three), jewels.two);
    assert placed.three <= slots.three - jewels.three;
    assert placed.two + placed.three == slots.two + slots.three - jewels.two - jewels.three;
  }

  /** When the residual keeps every option open, told by how many 1-jewels exceed the 1-slots, and then the 2-slots, that the
      2- and 3-jewels leave: none do; or no 3-slot is left; or one 1-jewel must break a 3-slot; or all of them go into 2-slots,
      filling these, beside a single 3-slot; or they use up the 3-slots, or all but one without leaving a lone 1-slot. */
  predicate Lossless(slots: Slots, jewels: Slots) {
    var placed := AfterTwos(AfterThrees(slots, jewels.three), jewels.two);
    var surplus := jewels.one - placed.one;
    var spill := surplus - 2 * placed.two;
    || surplus <= 0
    || placed.three == 0
    || (surplus == 1 && placed.two == 0)
    || (spill <= 0 && placed.three == 1 && surplus % 2 == 0)
    || (spill > 0 && spill > 3 * (placed.three - 1))
    || (spill > 0 && spill > 3 * (placed.three - 2) && spill % 3 != 2)
  }

  /** The same in terms of the slots that are left. */
  lemma LosslessLeaves(slots: Slots, jewels: Slots)
    requires slots.Valid() && jewels.Valid() && Fits(slots, jewels)
    ensures var placed := AfterTwos(AfterThrees(slots, jewels.three), jewels.two);
      var left := AfterOnes(placed, jewels.one);
      Lossless(slots, jewels) <==>
        || jewels.one <= placed.one
        || left.three == 0
        || (left.three == 1 && left.one == 0)
        || (placed.two == 0 && jewels.one == placed.one + 1)
  {
    var placed := AfterTwos(AfterThrees(slots, jewels.three), jewels.two);
    var surplus := jewels.one - placed.one;
    var spill := surplus - 2 * placed.two;
    if surplus > 0 && spill <= 0 {
      var h, p := AfterOnesInTwos(placed, jewels.one);
    } else if spill > 0 {
      Thirds(spill);
    }
  }

  /** The residual is exact if and only if `Lossless` holds. */
  lemma ResidualExactIffLossless(slots: Slots, jewels: Slots)
    requires slots.Valid() && jewels.Valid() && Fits(slots, jewels)
    ensures Lossless(slots, jewels) <==>
            (forall more: Slots | more.Valid() ::
               Fits(slots, jewels.Plus(more)) ==> Fits(Residual(slots, jewels), more))
  {
    ResidualIsStuffAll(slots, jewels);
    if Lossless(slots, jewels) {
      forall more: Slots | more.Valid() && Fits(slots, jewels.Plus(more))
        ensures Fits(Residual(slots, jewels), more)
      {
        ResidualComplete(slots, jewels, more);
      }
    } else {
      var left := Residual(slots, jewels);
      var more := Slots(0, left.two + left.three + 1, 0);
      ResidualLoses(slots, jewels);
      assert !Fits(left, more);
    }
  }

  lemma ResidualComplete(slots: Slots, jewels: Slots, more: Slots)
    requires slots.Valid() && jewels.Valid() && more.Valid()
    requires Lossless(slots, jewels) && Fits(slots, jewels.Plus(more))
    ensures Fits(Residual(slots, jewels), more)
  {
    var placed := AfterTwos(AfterThrees(slots, jewels.three), jewels.two);
    assert Fits(placed, more.Plus(Slots(jewels.one, 0, 0)));
    LosslessLeaves(slots, jewels);
    if jewels.one > placed.one {
      AfterOnesComplete(placed, jewels.one, more);
    }
  }

  lemma AfterOnesComplete(slots: Slots, one: int, more: Slots)
    requires slots.Valid() && more.Valid() && one > slots.one
    requires Fits(slots, more.Plus(Slots(one, 0, 0)))
    requires var left := AfterOnes(slots, one);
             || left.three == 0
             || (left.three == 1 && left.one == 0)
             || (slots.two == 0 && one == slots.one + 1)
    ensures Fits(AfterOnes(slots, one), more)
  {
    if one - slots.one <= 2 * slots.two {
      var h, p := AfterOnesInTwos(slots, one);
      OnesInTwos(slots, one, h, p, more);
    } else {
      var c := AfterOnesInThrees(slots, one);
      OnesInThrees(slots, one, c, AfterOnes(slots, one), more);
    }
  }

  lemma AfterOnesInTwos(slots: Slots, one: int) returns (h: int, p: int)
    requires 0 < one - slots.one <= 2 * slots.two
    ensures AfterOnes(slots, one) == Slots(p, slots.two - h, slots.three)
    ensures one - slots.one == 2 * h - p && 0 <= p <= 1 && h >= 1
  {
    h, p := (one - slots.one + 1) / 2, (one - slots.one) % 2;
    Halves(one - slots.one);
  }

  lemma AfterOnesInThrees(slots: Slots, one: int) returns (c: int)
    requires slots.Valid() && one - slots.one > 2 * slots.two
    ensures AfterOnes(slots, one) in {Slots(0, 0, slots.three - c), Slots(1, 0, slots.three - c), Slots(0, 1, slots.three - c)}
    ensures AfterOnes(slots, one).Weight() == slots.Weight() - one && c >= 1
  {
    c := (one - slots.one - 2 * slots.two + 2) / 3;
    Thirds(one - slots.one - 2 * slots.two);
  }

  /** 1-jewels in `h` of the 2-slots, leaving `p` 1-slots of them. */
  lemma OnesInTwos(slots: Slots, one: int, h: int, p: int, more: Slots)
    requires slots.Valid() && more.Valid() && h >= 1 && 0 <= p <= 1
    requires one - slots.one == 2 * h - p
    requires Fits(slots, more.Plus(Slots(one, 0, 0)))
    requires slots.three == 0 || (slots.three == 1 && p == 0)
    ensures Fits(Slots(p, slots.two - h, slots.three), more)
  {
  }

  /** 1-jewels in all 2-slots and in `c` of the 3-slots. */
  lemma OnesInThrees(slots: Slots, one: int, c: int, left: Slots, more: Slots)
    requires slots.Valid() && more.Valid() && c >= 1
    requires left in {Slots(0, 0, slots.three - c), Slots(1, 0, slots.three - c), Slots(0, 1, slots.three - c)}
    requires left.Weight() == slots.Weight() - one
    requires Fits(slots, more.Plus(Slots(one, 0, 0)))
    requires left.three == 0 || (left.three == 1 && left.one == 0) || (slots.two == 0 && one == slots.one + 1)
    ensures Fits(left, more)
  {
  }

  /** Whenever `Lossless` fails, one more 2-jewel than the residual admits would have fitted. */
  lemma ResidualLoses(slots: Slots, jewels: Slots)
    requires slots.Valid() && jewels.Valid() && Fits(slots, jewels)
    requires !Lossless(slots, jewels)
    ensures var left := Residual(slots, jewels);
            Fits(slots, jewels.Plus(Slots(0, left.two + left.three + 1, 0)))
  {
    hide Lossless, AfterOnes;
    LosslessLeaves(slots, jewels);
    ResidualIsStuffAll(slots, jewels);
    var placed := AfterTwos(AfterThrees(slots, jewels.three), jewels.two);
    if jewels.one - placed.one <= 2 * placed.two {
      var h, p := AfterOnesInTwos(placed, jewels.one);
    } else {
      var c := AfterOnesInThrees(placed, jewels.one);
    }
  }

  /** The smallest loss: one 1-jewel in a 2-slot beside a 3-slot. */
  lemma ResidualLossExample()
    ensures Residual(Slots(0, 1, 1), Slots(1, 0, 0)) == Slots(1, 0, 1)
    ensures Fits(Slots(0, 1, 1), Slots(1, 0, 0).Plus(Slots(0, 2, 0)))
    ensures !Fits(Slots(1, 0, 1), Slots(0, 2, 0))
    ensures !Lossless(Slots(0, 1, 1), Slots(1, 0, 0))
  {
  }
}
