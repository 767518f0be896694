/** The naive jewel search: add jewels one at a time, largest class first, never going back in the list. */
module JewelSearch {
  import opened Packing
  import opened Signatures
  import opened JewelSums
  import opened SlotRecurrence

  /** The jewels of each class in some order; class 0 is not used. */
  type Lists = l: seq<seq<Signature>> | |l| == 4 witness [[], [], [], []]

  // ---------- Choices, one jewel at a time ----------

  function Of(choice: Choice, size: int): seq<Signature> {
    if size == 1 then choice.ones else if size == 2 then choice.twos else choice.threes
  }

  function With(choice: Choice, size: int, keys: seq<Signature>): Choice {
    if size == 1 then choice.(ones := keys) else if size == 2 then choice.(twos := keys) else choice.(threes := keys)
  }

  function Prepend(choice: Choice, size: int, key: Signature): Choice {
    With(choice, size, [key] + Of(choice, size))
  }

  lemma PrependTotal(choice: Choice, size: int, key: Signature)
    requires 1 <= size <= 3
    ensures Prepend(choice, size, key).Total() == Add(key, choice.Total())
    ensures Without(Prepend(choice, size, key).Counts(), size) == choice.Counts()
  {
    hide Add;
    var a, b, c := Sum(choice.ones), Sum(choice.twos), Sum(choice.threes);
    SumConcat([key], Of(choice, size));
    SumSingle(key);
    AddAssociates(key, a, b);
    AddAssociates(key, Add(a, b), c);
    if size == 2 {
      AddAssociates(a, key, b);
      AddCommutes(a, key);
    } else if size == 3 {
      AddAssociates(Add(a, b), key, c);
      AddCommutes(Add(a, b), key);
    }
  }

  /** A jewel anywhere in the choice may be taken first. */
  lemma TakeOut(choice: Choice, size: int, n: nat) returns (rest: Choice)
    requires 1 <= size <= 3 && n < |Of(choice, size)|
    ensures rest == With(choice, size, Of(choice, size)[..n] + Of(choice, size)[n + 1..])
    ensures choice.Total() == Add(Of(choice, size)[n], rest.Total())
    ensures Without(choice.Counts(), size) == rest.Counts()
  {
    hide Add;
    var keys := Of(choice, size);
    rest := With(choice, size, keys[..n] + keys[n + 1..]);
    SumTakeOut(keys, n);
    SumConcat([keys[n]], keys[..n] + keys[n + 1..]);
    SumSingle(keys[n]);
    PrependTotal(rest, size, keys[n]);
  }

  // ---------- What the search reaches ----------

  /** Position (p, q) in the search order: earlier classes are used up, class p is used up before q. */
  function Start(lists: Lists, size: int, p: int, q: nat): nat
    requires 1 <= size <= 3 && (size == p ==> q <= |lists[size]|)
    ensures Start(lists, size, p, q) <= |lists[size]|
  {
    if size < p then 0 else if size == p then q else |lists[size]|
  }

  predicate AllOf(keys: seq<Signature>, list: seq<Signature>) {
    forall n :: 0 <= n < |keys| ==> keys[n] in list
  }

  ghost predicate IsPosition(lists: Lists, p: int, q: nat) {
    0 <= p <= 3 && (p > 0 ==> q < |lists[p]|)
  }

  /** Only jewels from position (p, q) on. */
  ghost predicate Allowed(choice: Choice, lists: Lists, p: int, q: nat)
    requires IsPosition(lists, p, q)
  {
    forall size :: 1 <= size <= 3 ==> AllOf(Of(choice, size), lists[size][Start(lists, size, p, q)..])
  }

  ghost predicate Reaches(choice: Choice, sum: Signature, slots: Slots, lists: Lists, p: int, q: nat, key: Signature)
    requires IsPosition(lists, p, q)
  {
    Allowed(choice, lists, p, q) && Fits(slots, choice.Counts()) && Add(key, choice.Total()) == sum
  }

  ghost predicate Reachable(sum: Signature, slots: Slots, lists: Lists, p: int, q: nat, key: Signature)
    requires IsPosition(lists, p, q)
  {
    exists choice: Choice :: Reaches(choice, sum, slots, lists, p, q, key)
  }

  function NextClass(lists: Lists, p: int, q: nat): int
    requires 1 <= p <= 3
  {
    if |lists[p]| <= q + 1 then p - 1 else p
  }

  function NextIndex(lists: Lists, p: int, q: nat): nat
    requires 1 <= p <= 3
  {
    if |lists[p]| <= q + 1 then 0 else q + 1
  }

  lemma AllowedSizes(choice: Choice, lists: Lists, p: int, q: nat)
    requires IsPosition(lists, p, q) && Allowed(choice, lists, p, q)
    ensures Largest(choice.Counts()) <= p
  {
    forall size | p < size <= 3
      ensures |Of(choice, size)| == 0
    {
      if Of(choice, size) != [] {
        NothingAfterEnd(Of(choice, size), lists[size]);
      }
    }
    assert |Of(choice, 3)| == |choice.threes| && |Of(choice, 2)| == |choice.twos| && |Of(choice, 1)| == |choice.ones|;
  }

  lemma NothingAfterEnd(keys: seq<Signature>, list: seq<Signature>)
    requires keys != []
    ensures !AllOf(keys, list[|list|..])
  {
    assert keys[0] !in list[|list|..];
  }

  /** Either the choice uses the jewel at (p, q), which may then be placed first, or it starts later. */
  lemma ReachStepSound(choice: Choice, sum: Signature, slots: Slots, lists: Lists, p: int, q: nat, key: Signature)
    requires IsPosition(lists, p, q) && p > 0 && slots.Valid()
    requires forall size :: 1 <= size <= 3 ==> lists[size] != []
    requires Reaches(choice, sum, slots, lists, p, q, key)
    ensures var stuffed := StuffIfFit(slots, p);
            || Reachable(sum, slots, lists, NextClass(lists, p, q), NextIndex(lists, p, q), key)
            || (stuffed.Some? && Reachable(sum, stuffed.value, lists, p, q, Add(key, lists[p][q])))
  {
    var keys, x := Of(choice, p), lists[p][q];
    if n :| 0 <= n < |keys| && keys[n] == x {
      PlaceFirst(choice, sum, slots, lists, p, q, key, n);
    } else {
      AllowedLater(choice, lists, p, q);
      assert Reaches(choice, sum, slots, lists, NextClass(lists, p, q), NextIndex(lists, p, q), key);
    }
  }

  lemma PlaceFirst(choice: Choice, sum: Signature, slots: Slots, lists: Lists, p: int, q: nat, key: Signature, n: nat)
    requires IsPosition(lists, p, q) && p > 0 && slots.Valid()
    requires Reaches(choice, sum, slots, lists, p, q, key)
    requires n < |Of(choice, p)| && Of(choice, p)[n] == lists[p][q]
    ensures var stuffed := StuffIfFit(slots, p);
            stuffed.Some? && Reachable(sum, stuffed.value, lists, p, q, Add(key, lists[p][q]))
  {
    hide Add, Choice.Total;
    var rest := TakeOut(choice, p, n);
    TakeOutAllowed(choice, lists, p, q, n);
    AllowedSizes(choice, lists, p, q);
    StuffLargestFirst(slots, choice.Counts(), p);
    AddAssociates(key, lists[p][q], rest.Total());
    assert Reaches(rest, sum, StuffIfFit(slots, p).value, lists, p, q, Add(key, lists[p][q]));
  }

  lemma TakeOutAllowed(choice: Choice, lists: Lists, p: int, q: nat, n: nat)
    requires IsPosition(lists, p, q) && p > 0 && n < |Of(choice, p)| && Allowed(choice, lists, p, q)
    ensures Allowed(With(choice, p, Of(choice, p)[..n] + Of(choice, p)[n + 1..]), lists, p, q)
  {
    var rest := With(choice, p, Of(choice, p)[..n] + Of(choice, p)[n + 1..]);
    forall size | 1 <= size <= 3
      ensures AllOf(Of(rest, size), lists[size][Start(lists, size, p, q)..])
    {
      assert AllOf(Of(choice, size), lists[size][Start(lists, size, p, q)..]);
    }
  }

  lemma AllowedLater(choice: Choice, lists: Lists, p: int, q: nat)
    requires IsPosition(lists, p, q) && p > 0
    requires forall size :: 1 <= size <= 3 ==> lists[size] != []
    requires Allowed(choice, lists, p, q) && forall n :: 0 <= n < |Of(choice, p)| ==> Of(choice, p)[n] != lists[p][q]
    ensures Allowed(choice, lists, NextClass(lists, p, q), NextIndex(lists, p, q))
  {
    var p', q' := NextClass(lists, p, q), NextIndex(lists, p, q);
    forall size | 1 <= size <= 3
      ensures AllOf(Of(choice, size), lists[size][Start(lists, size, p', q')..])
    {
      if size == p {
        assert lists[p][q..] == [lists[p][q]] + lists[p][q + 1..];
      } else if size == p' {
        assert lists[size][0..] == lists[size];
      }
      assert AllOf(Of(choice, size), lists[size][Start(lists, size, p, q)..]);
    }
  }

  lemma AllowedEarlier(choice: Choice, lists: Lists, p: int, q: nat)
    requires IsPosition(lists, p, q) && p > 0
    requires forall size :: 1 <= size <= 3 ==> lists[size] != []
    requires Allowed(choice, lists, NextClass(lists, p, q), NextIndex(lists, p, q))
    ensures Allowed(choice, lists, p, q)
  {
    var p', q' := NextClass(lists, p, q), NextIndex(lists, p, q);
    forall size | 1 <= size <= 3
      ensures AllOf(Of(choice, size), lists[size][Start(lists, size, p, q)..])
    {
      var before, after := Start(lists, size, p, q), Start(lists, size, p', q');
      assert AllOf(Of(choice, size), lists[size][after..]);
      assert before <= after;
      assert lists[size][before..] == lists[size][before..after] + lists[size][after..];
    }
  }

  /** Placing the jewel at (p, q) first, or moving on, reaches nothing else. */
  lemma ReachStepComplete(sum: Signature, slots: Slots, lists: Lists, p: int, q: nat, key: Signature)
    requires IsPosition(lists, p, q) && p > 0 && slots.Valid()
    requires forall size :: 1 <= size <= 3 ==> lists[size] != []
    requires var stuffed := StuffIfFit(slots, p);
             || Reachable(sum, slots, lists, NextClass(lists, p, q), NextIndex(lists, p, q), key)
             || (stuffed.Some? && Reachable(sum, stuffed.value, lists, p, q, Add(key, lists[p][q])))
    ensures Reachable(sum, slots, lists, p, q, key)
  {
    hide Add;
    var p', q', stuffed, x := NextClass(lists, p, q), NextIndex(lists, p, q), StuffIfFit(slots, p), lists[p][q];
    if choice :| Reaches(choice, sum, slots, lists, p', q', key) {
      AllowedEarlier(choice, lists, p, q);
      assert Reaches(choice, sum, slots, lists, p, q, key);
    } else {
      var choice :| Reaches(choice, sum, stuffed.value, lists, p, q, Add(key, x));
      var more := Prepend(choice, p, x);
      PrependTotal(choice, p, x);
      AddAssociates(key, x, choice.Total());
      PrependAllowed(choice, lists, p, q);
      AllowedSizes(more, lists, p, q);
      StuffLargestFirst(slots, more.Counts(), p);
      assert Reaches(more, sum, slots, lists, p, q, key);
    }
  }

  lemma PrependAllowed(choice: Choice, lists: Lists, p: int, q: nat)
    requires IsPosition(lists, p, q) && p > 0 && Allowed(choice, lists, p, q)
    ensures Allowed(Prepend(choice, p, lists[p][q]), lists, p, q)
  {
    var more := Prepend(choice, p, lists[p][q]);
    forall size | 1 <= size <= 3
      ensures AllOf(Of(more, size), lists[size][Start(lists, size, p, q)..])
    {
      assert AllOf(Of(choice, size), lists[size][Start(lists, size, p, q)..]);
      if size == p {
        assert lists[p][q..][0] == lists[p][q];
        assert Of(more, p) == [lists[p][q]] + Of(choice, p);
      }
    }
  }

  /** With no slot left, or no jewel left, only `key` itself is reached. */
  lemma ReachEnd(sum: Signature, slots: Slots, lists: Lists, p: int, q: nat, key: Signature)
    requires IsPosition(lists, p, q) && slots.Valid() && (p == 0 || slots == NO_SLOTS)
    ensures Reachable(sum, slots, lists, p, q, key) <==> sum == key
  {
    hide Add, Choice.Total;
    AddZero(key);
    NothingTotal();
    forall choice: Choice | Reaches(choice, sum, slots, lists, p, q, key)
      ensures choice == NO_JEWELS
    {
      AllowedSizes(choice, lists, p, q);
      NoCounts(choice);
    }
    if sum == key {
      ReachSelf(slots, lists, p, q, key);
    }
  }

  lemma NoCounts(choice: Choice)
    ensures Largest(choice.Counts()) <= 0 || choice.Counts().Weight() <= 0 ==> choice == NO_JEWELS
  {
  }

  lemma ReachSelf(slots: Slots, lists: Lists, p: int, q: nat, key: Signature)
    requires IsPosition(lists, p, q) && slots.Valid()
    ensures Reachable(key, slots, lists, p, q, key)
  {
    hide Add, Choice.Total;
    AddZero(key);
    NothingTotal();
    assert Reaches(NO_JEWELS, key, slots, lists, p, q, key);
  }

  // ---------- The search ----------

  method Dfs(i: nat, j: nat, k: nat, slots: int, id: nat, key: Signature, jewels: Lists, result: set<Signature>)
    returns (r: set<Signature>)
    requires IsPosition(jewels, slots, id) && slots > 0
    requires forall size :: 1 <= size <= 3 ==> jewels[size] != []
    ensures forall s :: s in r <==> s in result || Reachable(s, Slots(i, j, k), jewels, slots, id, key)
    decreases i + 2 * j + 3 * k
  {
    hide Add, Reachable;
    var free := Slots(i, j, k);
    r := result + {key};
    if 0 == i + j + k {
      forall s ensures Reachable(s, free, jewels, slots, id, key) <==> s == key {
        ReachEnd(s, free, jewels, slots, id, key);
      }
      return;
    }
    ReachSelf(free, jewels, slots, id, key);
    var p, q: nat := slots, id;
    while p > 0
      invariant IsPosition(jewels, p, q)
      invariant key in r
      invariant forall s :: (s in r || Reachable(s, free, jewels, p, q, key)) <==>
                            (s in result || Reachable(s, free, jewels, slots, id, key))
      decreases p, if p > 0 then |jewels[p]| - q else 0
    {
      ghost var before := r;
      var stuffed := StuffIfFit(free, p);
      if stuffed.Some? {
        r := Dfs(stuffed.value.one, stuffed.value.two, stuffed.value.three, p, q, Add(key, jewels[p][q]), jewels, r);
      }
      ghost var p', q' := NextClass(jewels, p, q), NextIndex(jewels, p, q);
      forall s
        ensures (s in r || Reachable(s, free, jewels, p', q', key)) <==>
                (s in before || Reachable(s, free, jewels, p, q, key))
      {
        ReachStep(s, free, jewels, p, q, key);
      }
      q := q + 1;
      if |jewels[p]| <= q {
        p := p - 1;
        q := 0;
      }
    }
    forall s ensures Reachable(s, free, jewels, 0, q, key) <==> s == key {
      ReachEnd(s, free, jewels, 0, q, key);
    }
  }

  lemma ReachStep(sum: Signature, slots: Slots, lists: Lists, p: int, q: nat, key: Signature)
    requires IsPosition(lists, p, q) && p > 0 && slots.Valid()
    requires forall size :: 1 <= size <= 3 ==> lists[size] != []
    ensures var stuffed := StuffIfFit(slots, p);
            Reachable(sum, slots, lists, p, q, key) <==>
            || Reachable(sum, slots, lists, NextClass(lists, p, q), NextIndex(lists, p, q), key)
            || (stuffed.Some? && Reachable(sum, stuffed.value, lists, p, q, Add(key, lists[p][q])))
  {
    hide Add;
    if choice :| Reaches(choice, sum, slots, lists, p, q, key) {
      ReachStepSound(choice, sum, slots, lists, p, q, key);
    }
    var stuffed := StuffIfFit(slots, p);
    if || Reachable(sum, slots, lists, NextClass(lists, p, q), NextIndex(lists, p, q), key)
       || (stuffed.Some? && Reachable(sum, stuffed.value, lists, p, q, Add(key, lists[p][q])))
    {
      ReachStepComplete(sum, slots, lists, p, q, key);
    }
  }

  /** The naive search finds exactly what the recurrence finds. */
  method DepthFirst(i: nat, j: nat, k: nat, jewels: Lists, ghost classes: Classes) returns (r: set<Signature>)
    requires forall size :: 1 <= size <= 3 ==> jewels[size] != []
    requires forall size, x :: 1 <= size <= 3 ==> (x in classes[size] <==> x in jewels[size])
    ensures r == Fill3(classes, i, j, k)
  {
    r := Dfs(i, j, k, 3, 0, ZERO, jewels, {});
    forall s ensures s in r <==> s in Fill3(classes, i, j, k) {
      ReachableIsAchievable(s, Slots(i, j, k), jewels, classes);
      Fill3Exact(classes, i, j, k, s);
    }
  }

  lemma ReachableIsAchievable(sum: Signature, slots: Slots, lists: Lists, classes: Classes)
    requires forall size :: 1 <= size <= 3 ==> lists[size] != []
    requires forall size, x :: 1 <= size <= 3 ==> (x in classes[size] <==> x in lists[size])
    ensures Reachable(sum, slots, lists, 3, 0, ZERO) <==> Achievable(sum, classes, slots)
  {
    hide Add, Choice.Total;
    forall choice: Choice
      ensures Allowed(choice, lists, 3, 0) <==> choice.From(classes)
    {
      AllowedIsFrom(choice, lists, classes);
    }
    if choice :| Reaches(choice, sum, slots, lists, 3, 0, ZERO) {
      AddZero(choice.Total());
      assert IsChoiceFor(choice, sum, classes, slots);
    }
    if choice :| IsChoiceFor(choice, sum, classes, slots) {
      AddZero(choice.Total());
      assert Reaches(choice, sum, slots, lists, 3, 0, ZERO);
    }
  }

  lemma AllowedIsFrom(choice: Choice, lists: Lists, classes: Classes)
    requires forall size :: 1 <= size <= 3 ==> lists[size] != []
    requires forall size, x :: 1 <= size <= 3 ==> (x in classes[size] <==> x in lists[size])
    ensures Allowed(choice, lists, 3, 0) <==> choice.From(classes)
  {
    forall size | 1 <= size <= 3
      ensures AllOf(Of(choice, size), lists[size][Start(lists, size, 3, 0)..]) <==> AllIn(Of(choice, size), classes[size])
    {
      assert lists[size][0..] == lists[size];
    }
    assert choice.From(classes) <==> forall size :: 1 <= size <= 3 ==> AllIn(Of(choice, size), classes[size]) by {
      assert Of(choice, 1) == choice.ones && Of(choice, 2) == choice.twos && Of(choice, 3) == choice.threes;
    }
  }
}
