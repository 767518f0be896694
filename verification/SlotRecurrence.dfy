/** All sums of jewels that fit given slots, as a recurrence over the slots, and what those sums are. */
module SlotRecurrence {
  import opened Packing
  import opened Signatures
  import opened JewelSums

  /** The keys admitted for jewels of size 1, 2 and 3; class 0 is not used. */
  type Classes = c: seq<set<Signature>> | |c| == 4 witness [{}, {}, {}, {}]

  // ---------- The meaning ----------

  /** `key` is the sum of some admitted jewels that fit the slots. */
  ghost predicate Achievable(key: Signature, classes: Classes, slots: Slots) {
    exists choice: Choice :: IsChoiceFor(choice, key, classes, slots)
  }

  ghost predicate IsChoiceFor(choice: Choice, key: Signature, classes: Classes, slots: Slots) {
    choice.From(classes) && Fits(slots, choice.Counts()) && choice.Total() == key
  }

  // ---------- The recurrence ----------

  function Product(a: set<Signature>, b: set<Signature>): set<Signature> {
    set x, y | x in a && y in b :: Add(x, y)
  }

  /** Exactly `n` jewels of one class. */
  function Fixed(class_: set<Signature>, n: nat): set<Signature> {
    if n == 0 then {ZERO} else Product(Fixed(class_, n - 1), class_)
  }

  function Fill1(classes: Classes, i: nat): set<Signature> {
    if i == 0 then {ZERO} else Fixed(classes[1], i) + Fill1(classes, i - 1)
  }

  function Fill2(classes: Classes, i: nat, j: nat): set<Signature>
    decreases j
  {
    if j == 0 then Fill1(classes, i)
    else Product(Fill1(classes, i), Fixed(classes[2], j)) + Fill2(classes, i + 2, j - 1)
  }

  function Fill3(classes: Classes, i: nat, j: nat, k: nat): set<Signature>
    decreases k
  {
    if k == 0 then Fill2(classes, i, j)
    else Product(Fill2(classes, i, j), Fixed(classes[3], k)) + Fill3(classes, i + 1, j + 1, k - 1)
  }

  /** Jewels in the body piece count `multiplier` times. */
  function BodyFill(classes: Classes, extra: int, multiplier: int): set<Signature> {
    var extension :=
      if extra == 1 then Fill3(classes, 1, 0, 0)
      else if extra == 2 then Fill3(classes, 0, 1, 0)
      else Fill3(classes, 0, 0, 1);
    set key | key in extension :: BodyRefactor(key, multiplier)
  }

  function Fill(classes: Classes, i: nat, j: nat, k: nat, extra: int, multiplier: int): set<Signature> {
    if 2 > multiplier || extra == 0 then Fill3(classes, i, j, k)
    else Product(Fill3(classes, i, j, k), BodyFill(classes, extra, multiplier))
  }

  // ---------- The recurrence is exact ----------

  lemma {:induction false} FixedAdmits(class_: set<Signature>, xs: seq<Signature>)
    requires AllIn(xs, class_)
    ensures Sum(xs) in Fixed(class_, |xs|)
  {
    if xs != [] {
      var front, last := xs[..|xs| - 1], xs[|xs| - 1];
      assert xs == front + [last];
      SumConcat(front, [last]);
      SumSingle(last);
      FixedAdmits(class_, front);
    }
  }

  lemma {:induction false} FixedWitness(class_: set<Signature>, n: nat, key: Signature) returns (xs: seq<Signature>)
    requires key in Fixed(class_, n)
    ensures |xs| == n && AllIn(xs, class_) && Sum(xs) == key
  {
    if n == 0 {
      xs := [];
    } else {
      var a, x :| a in Fixed(class_, n - 1) && x in class_ && key == Add(a, x);
      var front := FixedWitness(class_, n - 1, a);
      xs := front + [x];
      SumConcat(front, [x]);
      SumSingle(x);
    }
  }

  lemma {:induction false} Fill1Sound(classes: Classes, i: nat, key: Signature) returns (choice: Choice)
    requires key in Fill1(classes, i)
    ensures IsChoiceFor(choice, key, classes, Slots(i, 0, 0)) && choice.twos == choice.threes == []
  {
    if i > 0 && key !in Fixed(classes[1], i) {
      choice := Fill1Sound(classes, i - 1, key);
    } else {
      var xs := FixedWitness(classes[1], i, key);
      choice := Choice(xs, [], []);
      AddZero(key);
    }
  }

  lemma {:induction false} Fill2Sound(classes: Classes, i: nat, j: nat, key: Signature) returns (choice: Choice)
    requires key in Fill2(classes, i, j)
    ensures IsChoiceFor(choice, key, classes, Slots(i, j, 0)) && choice.threes == []
    decreases j
  {
    if j == 0 {
      choice := Fill1Sound(classes, i, key);
    } else if key in Fill2(classes, i + 2, j - 1) {
      choice := Fill2Sound(classes, i + 2, j - 1, key);
    } else {
      var a, b :| a in Fill1(classes, i) && b in Fixed(classes[2], j) && key == Add(a, b);
      var one := Fill1Sound(classes, i, a);
      var xs := FixedWitness(classes[2], j, b);
      choice := Choice(one.ones, xs, []);
      AddZero(Sum(one.ones));
      AddZero(key);
    }
  }

  lemma {:induction false} Fill3Sound(classes: Classes, i: nat, j: nat, k: nat, key: Signature) returns (choice: Choice)
    requires key in Fill3(classes, i, j, k)
    ensures IsChoiceFor(choice, key, classes, Slots(i, j, k))
    decreases k
  {
    hide Product;
    if k == 0 {
      choice := Fill2Sound(classes, i, j, key);
    } else if key in Fill3(classes, i + 1, j + 1, k - 1) {
      choice := Fill3Sound(classes, i + 1, j + 1, k - 1, key);
      Break3(Slots(i, j, k), choice.Counts());
    } else {
      choice := ThreesSound(classes, i, j, k, key);
    }
  }

  lemma Break3(slots: Slots, jewels: Slots)
    requires Fits(Slots(slots.one + 1, slots.two + 1, slots.three - 1), jewels)
    ensures Fits(slots, jewels)
  {
  }

  lemma ThreesSound(classes: Classes, i: nat, j: nat, k: nat, key: Signature) returns (choice: Choice)
    requires key in Product(Fill2(classes, i, j), Fixed(classes[3], k))
    ensures IsChoiceFor(choice, key, classes, Slots(i, j, k))
  {
    var a, b :| a in Fill2(classes, i, j) && b in Fixed(classes[3], k) && key == Add(a, b);
    var two := Fill2Sound(classes, i, j, a);
    var threes := FixedWitness(classes[3], k, b);
    ChoiceWithThrees(two, threes, a, classes, i, j);
    choice := two.(threes := threes);
  }

  lemma ChoiceWithThrees(choice: Choice, threes: seq<Signature>, key: Signature, classes: Classes, i: nat, j: nat)
    requires IsChoiceFor(choice, key, classes, Slots(i, j, 0)) && choice.threes == []
    requires AllIn(threes, classes[3])
    ensures IsChoiceFor(choice.(threes := threes), Add(key, Sum(threes)), classes, Slots(i, j, |threes|))
  {
    AddZero(Add(Sum(choice.ones), Sum(choice.twos)));
  }

  lemma {:induction false} Fill1Complete(classes: Classes, i: nat, ones: seq<Signature>)
    requires |ones| <= i && AllIn(ones, classes[1])
    ensures Sum(ones) in Fill1(classes, i)
  {
    if |ones| == i {
      FixedAdmits(classes[1], ones);
    } else {
      Fill1Complete(classes, i - 1, ones);
    }
  }

  lemma {:induction false} Fill2Complete(classes: Classes, i: nat, j: nat, ones: seq<Signature>, twos: seq<Signature>)
    requires Fits(Slots(i, j, 0), Slots(|ones|, |twos|, 0))
    requires Choice(ones, twos, []).From(classes)
    ensures Add(Sum(ones), Sum(twos)) in Fill2(classes, i, j)
    decreases j
  {
    if |twos| == j {
      Fill1Complete(classes, i, ones);
      FixedAdmits(classes[2], twos);
      AddZero(Sum(ones));
    } else {
      Fill2Complete(classes, i + 2, j - 1, ones, twos);
    }
  }

  lemma {:induction false} Fill3Complete(classes: Classes, i: nat, j: nat, k: nat, choice: Choice)
    requires choice.From(classes) && Fits(Slots(i, j, k), choice.Counts())
    ensures choice.Total() in Fill3(classes, i, j, k)
    decreases k
  {
    hide Product;
    if |choice.threes| == k {
      ThreesComplete(classes, i, j, choice);
    } else {
      Fill3Complete(classes, i + 1, j + 1, k - 1, choice);
    }
  }

  lemma ThreesComplete(classes: Classes, i: nat, j: nat, choice: Choice)
    requires choice.From(classes) && Fits(Slots(i, j, |choice.threes|), choice.Counts())
    ensures choice.Total() in Fill3(classes, i, j, |choice.threes|)
  {
    var two := Add(Sum(choice.ones), Sum(choice.twos));
    Fill2Complete(classes, i, j, choice.ones, choice.twos);
    if choice.threes == [] {
      AddZero(two);
    } else {
      FixedAdmits(classes[3], choice.threes);
    }
  }

  /** The recurrence yields the sums of all jewel choices that fit, and no other key. */
  lemma Fill3Exact(classes: Classes, i: nat, j: nat, k: nat, key: Signature)
    ensures key in Fill3(classes, i, j, k) <==> Achievable(key, classes, Slots(i, j, k))
  {
    if key in Fill3(classes, i, j, k) {
      var choice := Fill3Sound(classes, i, j, k, key);
    }
    if choice :| IsChoiceFor(choice, key, classes, Slots(i, j, k)) {
      Fill3Complete(classes, i, j, k, choice);
    }
  }
}
