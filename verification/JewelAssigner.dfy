/** Placing jewels into the parts of an armor set: largest jewel first, into the tightest part. */
module JewelAssigners {
  import opened Packing
  import opened Datasets
  import opened Keys

  // ---------- Placements ----------

  /** All jewels of a placement, part by part. */
  function Flatten(jewels: seq<seq<int>>): seq<int> {
    if jewels == [] then [] else jewels[0] + Flatten(jewels[1..])
  }

  /** The slots that a list of jewels takes. */
  function Taken(data: Data, ids: seq<int>): int
    requires data.AreJewels(ids)
  {
    if ids == [] then 0 else data.jewels[ids[0]].slots + Taken(data, ids[1..])
  }

  lemma {:induction false} TakenAppend(data: Data, ids: seq<int>, id: int)
    requires data.AreJewels(ids) && data.IsJewel(id)
    ensures Taken(data, ids + [id]) == Taken(data, ids) + data.jewels[id].slots
  {
    if ids != [] {
      assert (ids + [id])[1..] == ids[1..] + [id];
      TakenAppend(data, ids[1..], id);
    }
  }

  lemma FlattenFirst(jewels: seq<seq<int>>)
    requires jewels != []
    ensures multiset(Flatten(jewels)) == multiset(jewels[0]) + multiset(Flatten(jewels[1..]))
  {
  }

  lemma {:induction false} FlattenPut(jewels: seq<seq<int>>, part: nat, id: int)
    requires part < |jewels|
    ensures multiset(Flatten(jewels[part := jewels[part] + [id]])) == multiset(Flatten(jewels)) + multiset{id}
  {
    hide Flatten;
    var more := jewels[part := jewels[part] + [id]];
    FlattenFirst(jewels);
    FlattenFirst(more);
    if part == 0 {
      assert more[1..] == jewels[1..];
    } else {
      FlattenPut(jewels[1..], part - 1, id);
      assert more[1..] == jewels[1..][part - 1 := jewels[1..][part - 1] + [id]];
    }
  }

  /** How many of the parts have exactly `size` slots. */
  function CapacityCount(capacities: seq<int>, size: int): int {
    if capacities == [] then 0 else (if capacities[0] == size then 1 else 0) + CapacityCount(capacities[1..], size)
  }

  function CapacitySlots(capacities: seq<int>): Slots {
    Slots(CapacityCount(capacities, 1), CapacityCount(capacities, 2), CapacityCount(capacities, 3))
  }

  /** No part holds more than its slots. */
  ghost predicate NotOverfull(data: Data, capacities: seq<int>, jewels: seq<seq<int>>) {
    && |capacities| == |jewels|
    && forall p :: 0 <= p < |jewels| ==>
         0 <= capacities[p] <= 3 && data.AreJewels(jewels[p]) && Taken(data, jewels[p]) <= capacities[p]
  }

  lemma {:induction false} AreJewelsFlatten(data: Data, jewels: seq<seq<int>>)
    requires forall p :: 0 <= p < |jewels| ==> data.AreJewels(jewels[p])
    ensures data.AreJewels(Flatten(jewels))
  {
    if jewels != [] {
      AreJewelsFlatten(data, jewels[1..]);
    }
  }

  lemma {:induction false} TakenBounds(data: Data, ids: seq<int>)
    requires data.AreJewels(ids) && data.Valid()
    ensures var n1, n2, n3 := SizeCount(data, ids, 1), SizeCount(data, ids, 2), SizeCount(data, ids, 3);
            n1 >= 0 && n2 >= 0 && n3 >= 0 && Taken(data, ids) == n1 + 2 * n2 + 3 * n3
  {
    if ids != [] {
      assert data.IsJewel(ids[0]);
      TakenBounds(data, ids[1..]);
    }
  }

  /** However jewels are placed without overfilling a part, they meet the packing inequalities. */
  lemma {:induction false} PlacementFits(data: Data, capacities: seq<int>, jewels: seq<seq<int>>)
    requires data.Valid() && NotOverfull(data, capacities, jewels)
    ensures data.AreJewels(Flatten(jewels))
    ensures Fits(CapacitySlots(capacities), SizesOf(data, Flatten(jewels)))
  {
    hide SizeCount, Taken, Fits, Data.Valid;
    AreJewelsFlatten(data, jewels);
    if jewels != [] {
      var rest := Flatten(jewels[1..]);
      PlacementFits(data, capacities[1..], jewels[1..]);
      TakenBounds(data, jewels[0]);
      SizesConcat(data, jewels[0], rest, 1);
      SizesConcat(data, jewels[0], rest, 2);
      SizesConcat(data, jewels[0], rest, 3);
      OneMorePart(CapacitySlots(capacities[1..]), capacities[0], SizesOf(data, rest), SizesOf(data, jewels[0]));
    } else {
      NoParts(data);
    }
  }

  lemma NoParts(data: Data)
    ensures Fits(CapacitySlots([]), SizesOf(data, []))
  {
  }

  lemma OneMorePart(slots: Slots, c: int, jewels: Slots, more: Slots)
    requires Fits(slots, jewels) && 0 <= c <= 3 && more.Valid() && more.Weight() <= c
    ensures Fits(Slots(slots.one + (if c == 1 then 1 else 0), slots.two + (if c == 2 then 1 else 0), slots.three + (if c == 3 then 1 else 0)),
                 Slots(jewels.one + more.one, jewels.two + more.two, jewels.three + more.three))
  {
  }

  // ---------- The assigner ----------

  predicate Distinct(parts: seq<int>) {
    forall i, j :: 0 <= i < j < |parts| ==> parts[i] != parts[j]
  }

  /** One list for each of the sizes 0 to 3. */
  type BySize = l: seq<seq<int>> | |l| == 4 witness [[], [], [], []]

  /** Every part that has free slots is in exactly one list, that of its free slots. */
  ghost predicate Listed(parts: BySize, capacity: map<int, int>) {
    && (forall c :: 0 <= c <= 3 ==> Distinct(parts[c]))
    && (forall c, n :: 0 <= c <= 3 && 0 <= n < |parts[c]| ==> parts[c][n] in capacity && capacity[parts[c][n]] == c)
    && (forall p :: p in capacity ==> 0 <= capacity[p] <= 3)
    && (forall p :: p in capacity && capacity[p] > 0 ==> p in parts[capacity[p]])
  }

  ghost predicate Loaded(data: Data, jewels: BySize) {
    forall size, n :: 0 <= size <= 3 && 0 <= n < |jewels[size]| ==>
      data.IsJewel(jewels[size][n]) && data.jewels[jewels[size][n]].slots == size
  }

  function DropLast(lists: BySize, c: int): BySize
    requires 0 <= c <= 3 && lists[c] != []
  {
    lists[c := lists[c][..|lists[c]| - 1]]
  }

  /** The lists after the last part of list `used` has given up some slots. */
  function Moved(parts: BySize, used: int, left: int): BySize
    requires 0 <= left < used <= 3 && parts[used] != []
  {
    var part := parts[used][|parts[used]| - 1];
    var rest := DropLast(parts, used);
    if left > 0 then rest[left := rest[left] + [part]] else rest
  }

  lemma ListedMoved(parts: BySize, capacity: map<int, int>, used: int, left: int)
    requires Listed(parts, capacity) && 0 <= left < used <= 3 && parts[used] != []
    ensures var part := parts[used][|parts[used]| - 1];
            Listed(Moved(parts, used, left), capacity[part := left])
  {
    var part, rest := parts[used][|parts[used]| - 1], DropLast(parts, used);
    assert forall n :: 0 <= n < |rest[used]| ==> rest[used][n] == parts[used][n];
    forall p | p in capacity && p != part && capacity[p] > 0
      ensures p in Moved(parts, used, left)[capacity[p]]
    {
      var n :| 0 <= n < |parts[capacity[p]]| && parts[capacity[p]][n] == p;
      if capacity[p] == used {
        assert rest[used][n] == p;
      }
    }
  }

  lemma LoadedDropped(data: Data, jewels: BySize, size: int)
    requires Loaded(data, jewels) && 0 <= size <= 3 && jewels[size] != []
    ensures Loaded(data, DropLast(jewels, size))
    ensures jewels == DropLast(jewels, size)[size := DropLast(jewels, size)[size] + [jewels[size][|jewels[size]| - 1]]]
  {
    assert jewels[size] == jewels[size][..|jewels[size]| - 1] + [jewels[size][|jewels[size]| - 1]];
  }

  class JewelAssigner {
    const data: Data
    /** Parts by free slots, and waiting jewels by size. */
    var slotsPart: BySize
    var slotsJewel: BySize
    var slots: int
    /** The free slots of every part added so far. */
    ghost var capacity: map<int, int>

    ghost predicate Valid()
      reads this
    {
      && data.Valid() && 0 <= slots <= 3
      && Listed(slotsPart, capacity)
      && Loaded(data, slotsJewel)
      && (forall size :: slots < size <= 3 ==> slotsJewel[size] == [])
    }

    function Free(): Slots
      reads this
    {
      Slots(|slotsPart[1]|, |slotsPart[2]|, |slotsPart[3]|)
    }

    function Waiting(): Slots
      reads this
    {
      Slots(|slotsJewel[1]|, |slotsJewel[2]|, |slotsJewel[3]|)
    }

    function WaitingIds(): seq<int>
      reads this
    {
      slotsJewel[1] + slotsJewel[2] + slotsJewel[3]
    }

    constructor (data: Data)
      requires data.Valid()
      ensures Valid() && this.data == data && capacity == map[] && slots == 3
      ensures slotsPart == [[], [], [], []] && slotsJewel == [[], [], [], []]
    {
      this.data := data;
      slotsPart, slotsJewel := [[], [], [], []], [[], [], [], []];
      slots := 3;
      capacity := map[];
    }

    method AddPart(part: int, id: int)
      requires Valid() && data.IsArmor(id) && 0 <= data.armors[id].slots <= 3 && part !in capacity
      modifies this
      ensures Valid() && slotsJewel == old(slotsJewel) && slots == old(slots)
      ensures capacity == old(capacity)[part := data.armors[id].slots]
      ensures var c := data.armors[id].slots;
              slotsPart == old(slotsPart)[c := old(slotsPart)[c] + [part]]
    {
      var c := data.armors[id].slots;
      slotsPart := slotsPart[c := slotsPart[c] + [part]];
      capacity := capacity[part := c];
    }

    /** Jewels are added before the first Pop. */
    method AddJewel(id: int, quantity: nat)
      requires Valid() && data.IsJewel(id) && slots == 3
      modifies this
      ensures Valid() && slotsPart == old(slotsPart) && slots == 3 && capacity == old(capacity)
      ensures var size := data.jewels[id].slots;
              slotsJewel == old(slotsJewel)[size := old(slotsJewel)[size] + seq(quantity, _ => id)]
    {
      var size := data.jewels[id].slots;
      assert data.IsJewel(id);
      assert old(slotsJewel)[size] + seq(0, _ => id) == old(slotsJewel)[size];
      for n := 0 to quantity
        invariant Valid() && slotsPart == old(slotsPart) && slots == 3 && capacity == old(capacity)
        invariant slotsJewel == old(slotsJewel)[size := old(slotsJewel)[size] + seq(n, _ => id)]
      {
        slotsJewel := slotsJewel[size := slotsJewel[size] + [id]];
        assert old(slotsJewel)[size] + seq(n + 1, _ => id) == old(slotsJewel)[size] + seq(n, _ => id) + [id];
      }
    }

    /** No waiting jewel is larger than the largest. */
    lemma WaitingSizes()
      requires Valid()
      ensures forall id :: id in WaitingIds() ==> data.IsJewel(id) && data.jewels[id].slots <= Largest(Waiting())
    {
      forall id | id in WaitingIds()
        ensures data.IsJewel(id) && data.jewels[id].slots <= Largest(Waiting())
      {
        var size :| 1 <= size <= 3 && id in slotsJewel[size];
        var n :| 0 <= n < |slotsJewel[size]| && slotsJewel[size][n] == id;
      }
    }

    /** One placement: the largest waiting jewel goes to the part with the least free slots that takes it. */
    method Pop() returns (popped: bool, part: int, jewelId: int)
      requires Valid()
      modifies this
      ensures Valid()
      ensures popped ==>
        var size := Largest(old(Waiting()));
        && data.IsJewel(jewelId) && data.jewels[jewelId].slots == size && 0 < size <= 3
        && old(slotsJewel) == slotsJewel[size := slotsJewel[size] + [jewelId]]
        && part in old(capacity) && size <= old(capacity)[part]
        && capacity == old(capacity)[part := old(capacity)[part] - size]
        && StuffIfFit(old(Free()), size) == Some(Free())
      ensures popped ==> forall id :: id in old(WaitingIds()) ==> data.IsJewel(id) && data.jewels[id].slots <= data.jewels[jewelId].slots
      ensures popped ==> forall p :: p in old(capacity) && data.jewels[jewelId].slots <= old(capacity)[p] ==>
        old(capacity)[part] <= old(capacity)[p]
      ensures !popped ==>
        && slotsPart == old(slotsPart) && slotsJewel == old(slotsJewel) && capacity == old(capacity)
        && StuffIfFit(Free(), Largest(Waiting())) == None
      ensures !popped ==> forall id, p :: id in WaitingIds() && p in capacity ==> data.IsJewel(id) && capacity[p] < Largest(Waiting())
    {
      part, jewelId := 0, 0;
      WaitingSizes();
      while slots > 0 && slotsJewel[slots] == []
        invariant Valid() && slotsPart == old(slotsPart) && slotsJewel == old(slotsJewel) && capacity == old(capacity)
        decreases slots
      {
        slots := slots - 1;
      }
      assert slots == Largest(Waiting());
      if 0 < slots {
        for used := slots to 4
          invariant Valid() && slotsPart == old(slotsPart) && slotsJewel == old(slotsJewel) && capacity == old(capacity)
          invariant slots > 0 && slotsJewel[slots] != [] && slots == Largest(old(Waiting()))
          invariant forall c :: slots <= c < used ==> slotsPart[c] == []
        {
          if slotsPart[used] != [] {
            part, jewelId := TakeFrom(used);
            popped := true;
            return;
          }
        }
      }
      popped := false;
    }

    /** Move the last part of list `used` to the list of what the largest waiting jewel leaves of it. */
    method TakeFrom(used: int) returns (part: int, jewelId: int)
      requires Valid() && 0 < slots <= used <= 3 && slotsPart[used] != [] && slotsJewel[slots] != []
      modifies this
      ensures Valid() && slots == old(slots)
      ensures jewelId == old(slotsJewel)[slots][|old(slotsJewel)[slots]| - 1]
      ensures old(slotsJewel) == slotsJewel[slots := slotsJewel[slots] + [jewelId]]
      ensures part == old(slotsPart)[used][|old(slotsPart)[used]| - 1]
      ensures capacity == old(capacity)[part := used - slots]
      ensures |slotsPart[used]| == |old(slotsPart)[used]| - 1
      ensures forall c :: 0 <= c <= 3 && c != used ==>
        |slotsPart[c]| == |old(slotsPart)[c]| + if c == used - slots && c > 0 then 1 else 0
    {
      hide Listed, Loaded;
      ListedMoved(slotsPart, capacity, used, used - slots);
      LoadedDropped(data, slotsJewel, slots);
      part := slotsPart[used][|slotsPart[used]| - 1];
      jewelId := slotsJewel[slots][|slotsJewel[slots]| - 1];
      slotsPart := slotsPart[used := slotsPart[used][..|slotsPart[used]| - 1]];
      slotsJewel := slotsJewel[slots := slotsJewel[slots][..|slotsJewel[slots]| - 1]];
      if used > slots {
        slotsPart := slotsPart[used - slots := slotsPart[used - slots] + [part]];
      }
      capacity := capacity[part := used - slots];
    }

    /** Pop until nothing more can be placed. Every jewel is placed if and only if the jewels fit. */
    method AssignAll(jewels: seq<seq<int>>) returns (placed: seq<seq<int>>)
      requires Valid() && (forall p :: p in capacity ==> 0 <= p < |jewels|)
      requires forall p :: 0 <= p < |jewels| ==> data.AreJewels(jewels[p])
      modifies this
      ensures Valid() && Accounted(data, old(capacity), capacity, jewels, placed)
      ensures multiset(Flatten(placed)) + multiset(WaitingIds()) == multiset(Flatten(jewels)) + multiset(old(WaitingIds()))
      ensures WaitingIds() == [] <==> Fits(old(Free()), old(Waiting()))
    {
      hide StuffAll, Fits, Accounted;
      placed := jewels;
      AccountNone(data, capacity, jewels);
      StuffAllIffFits(Free(), Waiting());
      var more := true;
      while more
        invariant Valid() && Accounted(data, old(capacity), capacity, jewels, placed)
        invariant multiset(Flatten(placed)) + multiset(WaitingIds()) == multiset(Flatten(jewels)) + multiset(old(WaitingIds()))
        invariant StuffAll(Free(), Waiting()) == StuffAll(old(Free()), old(Waiting()))
        invariant !more ==> (StuffAll(Free(), Waiting()).Some? <==> WaitingIds() == [])
        decreases more, |WaitingIds()|
      {
        more, placed := PopInto(placed, jewels, old(capacity));
      }
    }

    /** One round of the loop. */
    method PopInto(placed: seq<seq<int>>, ghost jewels: seq<seq<int>>, ghost before: map<int, int>)
      returns (popped: bool, placed': seq<seq<int>>)
      requires Valid() && Accounted(data, before, capacity, jewels, placed)
      modifies this
      ensures Valid() && Accounted(data, before, capacity, jewels, placed')
      ensures multiset(Flatten(placed')) + multiset(WaitingIds()) == multiset(Flatten(placed)) + multiset(old(WaitingIds()))
      ensures StuffAll(Free(), Waiting()) == StuffAll(old(Free()), old(Waiting()))
      ensures popped ==> |WaitingIds()| < |old(WaitingIds())|
      ensures !popped ==> (StuffAll(Free(), Waiting()).Some? <==> WaitingIds() == [])
    {
      hide StuffAll, StuffIfFit, Accounted, Without, Largest, Valid;
      placed' := placed;
      ghost var capacity0, slotsJewel0, free0, waiting0 := capacity, slotsJewel, Free(), Waiting();
      var part, jewelId;
      popped, part, jewelId := Pop();
      if popped {
        AccountOne(data, before, capacity0, jewels, placed, part, jewelId);
        FlattenPut(placed, part, jewelId);
        placed' := placed[part := placed[part] + [jewelId]];
        WaitingLess(slotsJewel0, slotsJewel, data.jewels[jewelId].slots, jewelId);
        MoveOne(multiset(Flatten(placed)), multiset(Flatten(placed')),
                multiset(slotsJewel0[1] + slotsJewel0[2] + slotsJewel0[3]), multiset(WaitingIds()), jewelId);
        StuffAllStep(free0, waiting0);
      } else {
        StuffAllEnd(Free(), Waiting());
      }
    }
  }

  /** Each part holds what it held before, and what its free slots have shrunk by. */
  ghost predicate Accounted(data: Data, before: map<int, int>, after: map<int, int>, jewels: seq<seq<int>>, placed: seq<seq<int>>) {
    && |placed| == |jewels| && after.Keys == before.Keys
    && (forall p :: p in before ==> 0 <= p < |jewels| && after[p] >= 0)
    && forall p :: 0 <= p < |jewels| ==>
         && data.AreJewels(jewels[p]) && data.AreJewels(placed[p])
         && if p in before then Taken(data, placed[p]) == Taken(data, jewels[p]) + before[p] - after[p]
            else placed[p] == jewels[p]
  }

  lemma AccountNone(data: Data, capacity: map<int, int>, jewels: seq<seq<int>>)
    requires forall p :: p in capacity ==> 0 <= p < |jewels| && capacity[p] >= 0
    requires forall p :: 0 <= p < |jewels| ==> data.AreJewels(jewels[p])
    ensures Accounted(data, capacity, capacity, jewels, jewels)
  {
  }

  lemma AccountOne(data: Data, before: map<int, int>, after: map<int, int>, jewels: seq<seq<int>>, placed: seq<seq<int>>,
                   part: int, id: int)
    requires Accounted(data, before, after, jewels, placed) && data.IsJewel(id)
    requires part in after && data.jewels[id].slots <= after[part]
    ensures 0 <= part < |placed|
    ensures Accounted(data, before, after[part := after[part] - data.jewels[id].slots],
                      jewels, placed[part := placed[part] + [id]])
  {
    TakenAppend(data, placed[part], id);
  }

  lemma StuffAllStep(slots: Slots, jewels: Slots)
    requires jewels.Valid() && Largest(jewels) > 0 && StuffIfFit(slots, Largest(jewels)).Some?
    ensures Without(jewels, Largest(jewels)).Valid()
    ensures StuffAll(slots, jewels) == StuffAll(StuffIfFit(slots, Largest(jewels)).value, Without(jewels, Largest(jewels)))
  {
  }

  lemma StuffAllEnd(slots: Slots, jewels: Slots)
    requires jewels.Valid() && StuffIfFit(slots, Largest(jewels)) == None
    ensures StuffAll(slots, jewels).Some? <==> jewels == NO_SLOTS
  {
  }

  lemma MoveOne(placed: multiset<int>, placed': multiset<int>, waiting: multiset<int>, waiting': multiset<int>, id: int)
    requires placed' == placed + multiset{id} && waiting == waiting' + multiset{id}
    ensures placed' + waiting' == placed + waiting
  {
  }

  lemma WaitingLess(before: BySize, after: BySize, size: int, id: int)
    requires 1 <= size <= 3 && before == after[size := after[size] + [id]]
    ensures multiset(before[1] + before[2] + before[3]) == multiset(after[1] + after[2] + after[3]) + multiset{id}
    ensures |before[1] + before[2] + before[3]| == |after[1] + after[2] + after[3]| + 1
    ensures Slots(|after[1]|, |after[2]|, |after[3]|) == Without(Slots(|before[1]|, |before[2]|, |before[3]|), size)
  {
    forall lists: BySize
      ensures multiset(lists[1] + lists[2] + lists[3]) == multiset(lists[1]) + multiset(lists[2]) + multiset(lists[3])
    {
    }
    assert |before[size]| == |after[size]| + 1;
    assert multiset(before[size]) == multiset(after[size]) + multiset{id};
  }
}
