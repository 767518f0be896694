/** The memoised jewel query. */
module SlotClients {
  import opened Packing
  import opened Signatures
  import opened Datasets
  import opened Keys
  import opened SlotRecurrence

  const MAX_ONES := 24
  const MAX_TWOS := 8
  const MAX_THREES := 8
  const CELLS := MAX_ONES * MAX_TWOS * MAX_THREES * 3 * 5

  // ---------- Cache cells ----------

  function Cell(i: int, j: int, k: int): int {
    (k * MAX_TWOS + j) * MAX_ONES + i
  }

  function BodyCell(i: int, j: int, k: int, extra: int, multiplier: int): int {
    ((((multiplier - 1) * 3 + (extra - 1)) * MAX_THREES + k) * MAX_TWOS + j) * MAX_ONES + i
  }

  /** The sub-problem whose answer a cell holds, read off the cell's index. */
  function CellMeaning(classes: Classes, cell: nat): set<Signature> {
    SubProblem(classes, cell % MAX_ONES, cell / MAX_ONES % MAX_TWOS, cell / (MAX_ONES * MAX_TWOS) % MAX_THREES,
               cell / (MAX_ONES * MAX_TWOS * MAX_THREES))
  }

  function SubProblem(classes: Classes, i: nat, j: nat, k: nat, group: nat): set<Signature> {
    if group == 0 then Fill3(classes, i, j, k)
    else Fill(classes, i, j, k, group % 3 + 1, group / 3 + 1)
  }

  /** Where the cache may be asked: the recursion then stays inside it. */
  predicate InCache(i: int, j: int, k: int) {
    i >= 0 && j >= 0 && k >= 0 && i + 2 * j + 3 * k < MAX_ONES && j + k < MAX_TWOS
  }

  /** Cells of different sub-problems are different cells: the index determines the sub-problem. */
  lemma CellDecodes(classes: Classes, i: nat, j: nat, k: nat)
    requires InCache(i, j, k)
    ensures 0 <= Cell(i, j, k) < CELLS
    ensures CellMeaning(classes, Cell(i, j, k)) == Fill3(classes, i, j, k)
  {
    hide Fill3;
    CellDigits(i, j, k, 0);
  }

  lemma BodyCellDecodes(classes: Classes, i: nat, j: nat, k: nat, extra: int, multiplier: int)
    requires InCache(i, j, k) && 1 <= extra <= 3 && 2 <= multiplier <= 5
    ensures 0 <= BodyCell(i, j, k, extra, multiplier) < CELLS
    ensures CellMeaning(classes, BodyCell(i, j, k, extra, multiplier)) == Fill(classes, i, j, k, extra, multiplier)
  {
    hide Fill, Fill3;
    CellDigits(i, j, k, (multiplier - 1) * 3 + (extra - 1));
  }

  lemma CellDigits(i: nat, j: nat, k: nat, group: nat)
    requires i < MAX_ONES && j < MAX_TWOS && k < MAX_THREES
    ensures var cell := ((group * MAX_THREES + k) * MAX_TWOS + j) * MAX_ONES + i;
            && cell % MAX_ONES == i
            && cell / MAX_ONES % MAX_TWOS == j
            && cell / (MAX_ONES * MAX_TWOS) % MAX_THREES == k
            && cell / (MAX_ONES * MAX_TWOS * MAX_THREES) == group
  {
    var upper := (group * MAX_THREES + k) * MAX_TWOS + j;
    assert (upper * MAX_ONES + i) / MAX_ONES == upper;
    assert upper / MAX_TWOS == group * MAX_THREES + k;
  }

  // ---------- The query's jewels ----------

  /** Jewel `id` is admitted to the class of its slots under the key `key`. */
  predicate Admits(data: Data, skillIds: seq<int>, effects: seq<Effect>, filter: JewelFilter, id: int) {
    data.IsJewel(id) && filter.Validate(id) && JewelValid(data.jewels[id], skillIds)
  }

  function AdmittedKeys(data: Data, skillIds: seq<int>, effects: seq<Effect>, filter: JewelFilter, size: int): set<Signature>
    requires |effects| <= EFFECTS
  {
    set id | 0 <= id < |data.jewels| && Admits(data, skillIds, effects, filter, id) && data.jewels[id].slots == size
      :: JewelSignature(data.jewels[id], effects)
  }

  function AdmittedClasses(data: Data, skillIds: seq<int>, effects: seq<Effect>, filter: JewelFilter): Classes
    requires |effects| <= EFFECTS
  {
    seq(4, size => AdmittedKeys(data, skillIds, effects, filter, size))
  }

  class SlotClient {
    const classes: Classes
    const buffer: array<set<Signature>>
    const fixedBuffer: array2<set<Signature>>

    /** Every cell is empty or holds the full answer to the sub-problem of its index. */
    ghost predicate Valid()
      reads buffer, fixedBuffer
    {
      && buffer.Length == CELLS && fixedBuffer.Length0 == 4 && fixedBuffer.Length1 == MAX_ONES
      && buffer[0] == {ZERO}
      && (forall c :: 0 <= c < CELLS && buffer[c] != {} ==> buffer[c] == CellMeaning(classes, c))
      && (forall size :: 1 <= size <= 3 ==> fixedBuffer[size, 0] == {ZERO})
      && (forall size, i :: 1 <= size <= 3 && 0 <= i < MAX_ONES && fixedBuffer[size, i] != {} ==>
            fixedBuffer[size, i] == Fixed(classes[size], i))
    }

    constructor (data: Data, skillIds: seq<int>, effects: seq<Effect>, filter: JewelFilter)
      requires data.Valid() && |effects| <= EFFECTS
      ensures Valid() && fresh(buffer) && fresh(fixedBuffer)
      ensures classes == AdmittedClasses(data, skillIds, effects, filter)
    {
      var keys: Classes := [{}, {}, {}, {}];
      for i := 0 to |data.jewels|
        invariant |keys| == 4
        invariant forall size :: 0 <= size < 4 ==>
          keys[size] == set id | 0 <= id < i && Admits(data, skillIds, effects, filter, id) && data.jewels[id].slots == size
                        :: JewelSignature(data.jewels[id], effects)
      {
        if Admits(data, skillIds, effects, filter, i) {
          var slots := data.jewels[i].slots;
          keys := keys[slots := keys[slots] + {JewelSignature(data.jewels[i], effects)}];
        }
      }
      classes := keys;
      buffer := new set<Signature>[CELLS](c => if c == 0 then {ZERO} else {});
      fixedBuffer := new set<Signature>[4, MAX_ONES]((size, i) => if i == 0 && size > 0 then {ZERO} else {});
      new;
      assert CellMeaning(classes, 0) == {ZERO};
    }

    method SetProduct(a: set<Signature>, b: set<Signature>) returns (c: set<Signature>)
      ensures c == Product(a, b)
    {
      c := {};
      var restA := a;
      while restA != {}
        invariant restA <= a && c == Product(a - restA, b)
      {
        var keyA :| keyA in restA;
        var restB := b;
        while restB != {}
          invariant restB <= b && c == Product(a - restA, b) + Product({keyA}, b - restB)
        {
          var keyB :| keyB in restB;
          c := c + {Add(keyA, keyB)};
          restB := restB - {keyB};
        }
        restA := restA - {keyA};
      }
      assert a - {} == a;
    }

    method CalculateFixed(size: int, i: nat) returns (r: set<Signature>)
      requires Valid() && 1 <= size <= 3 && i < MAX_ONES
      modifies fixedBuffer
      ensures Valid() && r == Fixed(classes[size], i)
      decreases i
    {
      if fixedBuffer[size, i] != {} {
        return fixedBuffer[size, i];
      }
      var fewer := CalculateFixed(size, i - 1);
      var product := SetProduct(fewer, classes[size]);
      fixedBuffer[size, i] := product;
      return fixedBuffer[size, i];
    }

    method Calculate1(i: nat) returns (r: set<Signature>)
      requires Valid() && InCache(i, 0, 0)
      modifies buffer, fixedBuffer
      ensures Valid() && r == Fill3(classes, i, 0, 0)
      decreases i
    {
      hide CellMeaning, Product;
      CellDecodes(classes, i, 0, 0);
      if buffer[i] != {} {
        return buffer[i];
      }
      var exact := CalculateFixed(1, i);
      var fewer := Calculate1(i - 1);
      buffer[i] := exact + fewer;
      return buffer[i];
    }

    method Calculate2(i: nat, j: nat) returns (r: set<Signature>)
      requires Valid() && InCache(i, j, 0)
      modifies buffer, fixedBuffer
      ensures Valid() && r == Fill3(classes, i, j, 0)
      decreases j
    {
      hide CellMeaning, Product;
      var index := j * MAX_ONES + i;
      CellDecodes(classes, i, j, 0);
      if buffer[index] != {} {
        return buffer[index];
      }
      if 0 == j {
        r := Calculate1(i);
        return;
      }
      var ones := Calculate1(i);
      var twos := CalculateFixed(2, j);
      var product := SetProduct(ones, twos);
      var broken := Calculate2(i + 2, j - 1);
      buffer[index] := product + broken;
      return buffer[index];
    }

    method Calculate3(i: nat, j: nat, k: nat) returns (r: set<Signature>)
      requires Valid() && InCache(i, j, k)
      modifies buffer, fixedBuffer
      ensures Valid() && r == Fill3(classes, i, j, k)
      decreases k
    {
      hide CellMeaning, Product, Fixed, Fill1;
      var index := Cell(i, j, k);
      CellDecodes(classes, i, j, k);
      if buffer[index] != {} {
        return buffer[index];
      }
      if 0 == j && 0 == k {
        r := Calculate1(i);
        return;
      }
      if 0 == k {
        r := Calculate2(i, j);
        return;
      }
      var smaller := Calculate2(i, j);
      var threes := CalculateFixed(3, k);
      var product := SetProduct(smaller, threes);
      var broken := Calculate3(i + 1, j + 1, k - 1);
      buffer[index] := product + broken;
      return buffer[index];
    }

    /** The whole query: slots outside the body piece, and `extra` slots in a body piece that counts `multiplier` times. */
    method Query(i: nat, j: nat, k: nat, extra: int, multiplier: int) returns (r: set<Signature>)
      requires Valid() && InCache(i, j, k) && 0 <= extra <= 3 && multiplier <= 5
      modifies buffer, fixedBuffer
      ensures Valid() && r == Fill(classes, i, j, k, extra, multiplier)
    {
      hide CellMeaning, Product, Fill3;
      var baseAnswer := Calculate3(i, j, k);
      if 2 > multiplier || 0 == extra {
        return baseAnswer;
      }
      var index := BodyCell(i, j, k, extra, multiplier);
      BodyCellDecodes(classes, i, j, k, extra, multiplier);
      if buffer[index] != {} {
        return buffer[index];
      }
      var extension;
      if 1 == extra {
        extension := Calculate3(1, 0, 0);
      } else if 2 == extra {
        extension := Calculate3(0, 1, 0);
      } else {
        extension := Calculate3(0, 0, 1);
      }
      var transformed, rest := {}, extension;
      while rest != {}
        invariant rest <= extension
        invariant transformed == set key | key in extension - rest :: BodyRefactor(key, multiplier)
      {
        var key :| key in rest;
        transformed := transformed + {BodyRefactor(key, multiplier)};
        rest := rest - {key};
      }
      assert extension - {} == extension;
      var product := SetProduct(baseAnswer, transformed);
      buffer[index] := product;
      return buffer[index];
    }

    /** Slots of `original` that the jewels of `stuffed` leave. */
    static method GetResidual(original: Signature, stuffed: Signature) returns (i: int, j: int, k: int, extra: int)
      ensures Slots(i, j, k) == Residual(KeySlots(original), KeySlots(stuffed))
      ensures extra == BodySlotSum(original) - BodySlotSum(stuffed)
    {
      var o, s := KeySlots(original), KeySlots(stuffed);
      i, j, k := o.one, o.two, o.three;
      var one, two, three := s.one, s.two, s.three;
      k := k - three;
      if two <= j {
        j := j - two;
      } else {
        two := two - j;
        j := 0;
        k := k - two;
        i := i + two;
      }
      assert Slots(i, j, k) == AfterTwos(AfterThrees(o, s.three), s.two);
      if one <= i {
        i := i - one;
      } else {
        one := one - i;
        i := 0;
        if one <= 2 * j {
          j := j - (one + 1) / 2;
          if one % 2 == 1 {
            i := 1;
          }
        } else {
          one := one - 2 * j;
          j := 0;
          k := k - (one + 2) / 3;
          var remain := one % 3;
          if 1 == remain {
            j := j + 1;
          } else if 2 == remain {
            i := i + 1;
          }
        }
      }
      extra := BodySlotSum(original) - BodySlotSum(stuffed);
    }
  }
}
