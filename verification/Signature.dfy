/** The packed 16-byte signature.

    byte 0: number of 1-slots; byte 1: 3-slots (high nibble) and 2-slots (low nibble);
    byte 2: body 3-slot bit, body 2-slot bit, two bits of body 1-slots, three bits of torso multiplier;
    bytes 3..15: points of up to 13 skills. A byte is a signed char, and arithmetic on it wraps. */
module Signatures {
  import opened Packing

  const EFFECTS_BEGIN := 3
  const BYTES := 16
  const EFFECTS := 13

  /** Conversion of an int to a signed char. */
  function AsChar(x: int): (c: int)
    ensures -128 <= c < 128
    ensures -128 <= x < 128 ==> c == x
  {
    (x + 128) % 256 - 128
  }

  type Signature = s: seq<int> | |s| == BYTES && forall i :: 0 <= i < BYTES ==> -128 <= s[i] < 128
    witness [0, 0, 0, 0, 0, 0, 0, 0, 0, 0, 0, 0, 0, 0, 0, 0]

  const ZERO: Signature := [0, 0, 0, 0, 0, 0, 0, 0, 0, 0, 0, 0, 0, 0, 0, 0]

  // ---------- Operations ----------

  /** operator+ and operator+= */
  function Add(a: Signature, b: Signature): Signature {
    seq(BYTES, i requires 0 <= i < BYTES => AsChar(a[i] + b[i]))
  }

  /** operator|: adds the points and forgets the slots. */
  function Or(a: Signature, b: Signature): Signature {
    seq(BYTES, i requires 0 <= i < BYTES => if i < EFFECTS_BEGIN then 0 else AsChar(a[i] + b[i]))
  }

  /** operator*= */
  function Times(a: Signature, multiplier: int): Signature {
    seq(BYTES, i requires 0 <= i < BYTES => if i < EFFECTS_BEGIN then a[i] else AsChar(a[i] * multiplier))
  }

  /** Bitwise or of two non-negative integers. */
  function BitOr(a: nat, b: nat): nat
    decreases a + b
  {
    if a == 0 then b
    else if b == 0 then a
    else (if a % 2 == 1 || b % 2 == 1 then 1 else 0) + 2 * BitOr(a / 2, b / 2)
  }

  /** `bytes[2] |= bits` on a signed char. */
  function OrInto(byte: int, bits: int): int {
    AsChar(BitOr(byte % 256, bits % 256))
  }

  /** Byte 2 after the slots in `key` have been recorded as body slots. */
  function WithBodySlots(byte: int, key: Slots): int {
    var b0 := if key.one != 0 then OrInto(byte, 0x08 * key.one) else byte;
    var b1 := if key.two != 0 then OrInto(b0, 0x20) else b0;
    if key.three != 0 then OrInto(b1, 0x40) else b1
  }

  function BodyRefactor(a: Signature, multiplier: int): (r: Signature)
  {
    if multiplier > 1 then
      seq(BYTES, i requires 0 <= i < BYTES =>
        if i < 2 then 0
        else if i < EFFECTS_BEGIN then AsChar(WithBodySlots(a[2], KeySlots(a)))
        else AsChar(a[i] * multiplier))
    else a
  }

  function BodySlotSum(a: Signature): int {
    if a[2] / 64 % 2 != 0 then 3
    else (if a[2] / 32 % 2 != 0 then 2 else 0) + a[2] / 8 % 4
  }

  function BodySlots(a: Signature): Slots {
    Slots(a[2] / 8 % 4, if a[2] / 32 % 2 != 0 then 1 else 0, if a[2] / 64 % 2 != 0 then 1 else 0)
  }

  function Multiplier(a: Signature): int {
    a[2] % 8
  }

  predicate IsZero(a: Signature) {
    forall i :: 0 <= i < BYTES ==> a[i] == 0
  }

  function KeySlots(a: Signature): Slots {
    Slots(a[0], a[1] % 16, a[1] / 16)
  }

  function InverseOf(a: Signature): Signature {
    seq(BYTES, i requires 0 <= i < BYTES =>
      if i < 2 then 0 else if i < EFFECTS_BEGIN then a[i] else AsChar(-a[i]))
  }

  function AddPoints(a: Signature, effect: nat, points: int): Signature
    requires effect < EFFECTS
  {
    a[EFFECTS_BEGIN + effect := AsChar(a[EFFECTS_BEGIN + effect] + points)]
  }

  function GetPoints(a: Signature, effect: nat): int
    requires effect < EFFECTS
  {
    a[EFFECTS_BEGIN + effect]
  }

  predicate Satisfy(test: Signature, inverseTarget: Signature) {
    forall i :: EFFECTS_BEGIN <= i < BYTES ==> test[i] + inverseTarget[i] >= 0
  }

  // ---------- Wrap-around ----------

  lemma AsCharCongruent(x: int, y: int, q: int)
    requires x == y + 256 * q
    ensures AsChar(x) == AsChar(y)
  {
  }

  lemma AsCharAdd(x: int, y: int)
    ensures AsChar(AsChar(x) + AsChar(y)) == AsChar(x + y)
  {
    AsCharCongruent(AsChar(x) + AsChar(y), x + y, -((x + 128) / 256) - (y + 128) / 256);
  }

  lemma AsCharTimes(x: int, m: int)
    ensures AsChar(AsChar(x) * m) == AsChar(x * m)
  {
    var q := (x + 128) / 256;
    assert AsChar(x) == x - 256 * q;
    assert (x - 256 * q) * m == x * m + 256 * (-(q * m));
    AsCharCongruent(AsChar(x) * m, x * m, -(q * m));
  }

  lemma AddZero(a: Signature)
    ensures Add(a, ZERO) == a == Add(ZERO, a)
  {
  }

  lemma AddCommutes(a: Signature, b: Signature)
    ensures Add(a, b) == Add(b, a)
  {
  }

  lemma AddAssociates(a: Signature, b: Signature, c: Signature)
    ensures Add(Add(a, b), c) == Add(a, Add(b, c))
  {
    hide AsChar;
    forall i | 0 <= i < BYTES
      ensures Add(Add(a, b), c)[i] == Add(a, Add(b, c))[i]
    {
      AsCharAssociates(a[i], b[i], c[i]);
    }
  }

  lemma AsCharAssociates(x: int, y: int, z: int)
    ensures AsChar(AsChar(x + y) + z) == AsChar(x + AsChar(y + z))
  {
    AsCharCongruent(AsChar(x + y) + z, x + y + z, -((x + y + 128) / 256));
    AsCharCongruent(x + AsChar(y + z), x + y + z, -((y + z + 128) / 256));
  }

  // ---------- The fields a signature packs ----------

  /** The unpacked fields. Points are true totals, not chars. */
  datatype Fields = Fields(slots: Slots, body: Slots, multiplier: int, points: seq<int>)
  {
    predicate Valid() { |points| == EFFECTS }

    function Plus(other: Fields): Fields
      requires Valid() && other.Valid()
    {
      Fields(slots.Plus(other.slots), body.Plus(other.body), multiplier + other.multiplier,
             seq(EFFECTS, e requires 0 <= e < EFFECTS => points[e] + other.points[e]))
    }

    /** The bounds under which no field carries into its neighbour or flips a sign. */
    predicate InRange() {
      && Valid()
      && 0 <= slots.one < 128 && 0 <= slots.two < 16 && 0 <= slots.three < 8
      && 0 <= body.one < 4 && 0 <= body.two < 2 && 0 <= body.three < 2
      && 0 <= multiplier < 8
    }

    /** The body piece's slots and points under a torso multiplier. */
    function Refactored(m: int): Fields
      requires Valid()
    {
      if m > 1 then Fields(NO_SLOTS, slots, multiplier, seq(EFFECTS, e requires 0 <= e < EFFECTS => points[e] * m))
      else this
    }
  }

  const NO_FIELDS := Fields(NO_SLOTS, NO_SLOTS, 0, [0, 0, 0, 0, 0, 0, 0, 0, 0, 0, 0, 0, 0])

  /** The integer that byte `i` holds, before it wraps. */
  function Unwrapped(f: Fields, i: nat): int
    requires f.Valid() && i < BYTES
  {
    if i == 0 then f.slots.one
    else if i == 1 then f.slots.two + 16 * f.slots.three
    else if i == 2 then f.multiplier + 8 * f.body.one + 32 * f.body.two + 64 * f.body.three
    else f.points[i - EFFECTS_BEGIN]
  }

  function Pack(f: Fields): Signature
    requires f.Valid()
  {
    seq(BYTES, i requires 0 <= i < BYTES => AsChar(Unwrapped(f, i)))
  }

  /** Byte addition is addition of the fields. */
  lemma PackPlus(f: Fields, g: Fields)
    requires f.Valid() && g.Valid()
    ensures Add(Pack(f), Pack(g)) == Pack(f.Plus(g))
  {
    forall i | 0 <= i < BYTES
      ensures Add(Pack(f), Pack(g))[i] == Pack(f.Plus(g))[i]
    {
      AsCharAdd(Unwrapped(f, i), Unwrapped(g, i));
    }
  }

  lemma PackNothing()
    ensures Pack(NO_FIELDS) == ZERO
  {
    forall i | 0 <= i < BYTES
      ensures Pack(NO_FIELDS)[i] == ZERO[i]
    {
      assert Unwrapped(NO_FIELDS, i) == 0;
    }
  }

  lemma PackedBytes(f: Fields)
    requires f.InRange()
    ensures Pack(f)[0] == f.slots.one
    ensures Pack(f)[1] == f.slots.two + 16 * f.slots.three
    ensures Pack(f)[2] == f.multiplier + 8 * f.body.one + 32 * f.body.two + 64 * f.body.three
  {
  }

  /** Inside the bounds every field reads back. */
  lemma UnpackFields(f: Fields)
    requires f.InRange()
    ensures KeySlots(Pack(f)) == f.slots
    ensures Multiplier(Pack(f)) == f.multiplier
    ensures BodySlots(Pack(f)) == f.body
    ensures f.body.Weight() <= 3 ==> BodySlotSum(Pack(f)) == f.body.Weight()
    ensures forall e :: 0 <= e < EFFECTS ==> GetPoints(Pack(f), e) == AsChar(f.points[e])
  {
    PackedBytes(f);
    var b := Pack(f)[2];
    assert b / 64 % 2 == f.body.three;
    assert b / 32 % 2 == f.body.two;
    assert b / 8 % 4 == f.body.one;
  }

  function Shift(x: nat, n: nat): nat {
    if n == 0 then x else 2 * Shift(x, n - 1)
  }

  /** Or with a number whose bits all lie above those of the other is addition. */
  lemma {:induction false} BitOrHigh(low: nat, high: nat, n: nat)
    requires low < Shift(1, n)
    ensures BitOr(low, Shift(high, n)) == low + Shift(high, n)
  {
    if n > 0 {
      assert Shift(high, n) == 2 * Shift(high, n - 1);
      BitOrHigh(low / 2, high, n - 1);
    }
  }

  lemma OrIntoHigh(low: int, high: nat, n: nat)
    requires 0 <= low < Shift(1, n) && low + Shift(high, n) < 128
    ensures OrInto(low, Shift(high, n)) == low + Shift(high, n)
  {
    hide BitOr, Shift;
    BitOrHigh(low, high, n);
    OrIntoSmall(low, Shift(high, n));
  }

  lemma OrIntoSmall(low: nat, high: nat)
    requires low + high < 128
    ensures OrInto(low, high) == AsChar(BitOr(low, high))
  {
    hide BitOr;
    assert low % 256 == low && high % 256 == high;
  }

  lemma Shifts(x: nat)
    ensures Shift(x, 3) == 8 * x && Shift(x, 5) == 32 * x && Shift(x, 6) == 64 * x
  {
    assert Shift(x, 3) == 2 * Shift(x, 2) && Shift(x, 2) == 2 * Shift(x, 1);
    assert Shift(x, 6) == 2 * Shift(x, 5) && Shift(x, 5) == 2 * Shift(x, 4) && Shift(x, 4) == 2 * Shift(x, 3);
  }

  /** The bit operations on byte 2, on a piece with few slots. */
  lemma WithBodySlotsAdds(multiplier: int, slots: Slots)
    requires 0 <= multiplier < 8
    requires 0 <= slots.one < 4 && 0 <= slots.two < 2 && 0 <= slots.three < 2
    ensures WithBodySlots(multiplier, slots) == multiplier + 8 * slots.one + 32 * slots.two + 64 * slots.three
  {
    hide OrInto;
    var b0 := multiplier + 8 * slots.one;
    var b1 := b0 + 32 * slots.two;
    Shifts(1);
    Shifts(slots.one);
    OrIntoHigh(multiplier, slots.one, 3);
    OrIntoHigh(b0, 1, 5);
    OrIntoHigh(b1, 1, 6);
  }

  /** Moving the body slots by bit operations is `Refactored` on the fields. */
  lemma PackRefactored(f: Fields, m: int)
    requires f.InRange() && f.body == NO_SLOTS
    requires f.slots.one < 4 && f.slots.two < 2 && f.slots.three < 2
    ensures BodyRefactor(Pack(f), m) == Pack(f.Refactored(m))
  {
    if m > 1 {
      RefactoredByte2(f, m);
      forall i | 0 <= i < BYTES && i != 2
        ensures BodyRefactor(Pack(f), m)[i] == Pack(f.Refactored(m))[i]
      {
        if i >= EFFECTS_BEGIN {
          AsCharTimes(f.points[i - EFFECTS_BEGIN], m);
        }
      }
    }
  }

  lemma RefactoredByte2(f: Fields, m: int)
    requires m > 1 && f.InRange() && f.body == NO_SLOTS
    requires f.slots.one < 4 && f.slots.two < 2 && f.slots.three < 2
    ensures BodyRefactor(Pack(f), m)[2] == Pack(f.Refactored(m))[2]
  {
    hide WithBodySlots;
    PackedBytes(f);
    WithBodySlotsAdds(f.multiplier, f.slots);
    var slots := f.slots;
    assert KeySlots(Pack(f)) == slots;
    PackedBytes(f.Refactored(m));
  }
}
