/** Every key that the jewel queries emit can be taken apart into jewels again. */
module EmittedKeys {
  import opened Packing
  import opened Signatures
  import opened JewelSums
  import opened JewelPlans
  import opened SlotRecurrence
  import opened Datasets
  import opened Keys
  import opened JewelPicks
  import opened JewelSolvers

  /** The solver knows every jewel of the classes. */
  ghost predicate Covers(table: Table, classes: Classes) {
    forall size, x :: 1 <= size <= 3 && x in classes[size] ==> x in table.keys[size]
  }

  lemma CoveredAreJewelKeys(table: Table, classes: Classes)
    requires table.Valid() && Covers(table, classes)
    ensures AreJewelKeys(classes)
  {
    forall size, x | 1 <= size <= 3 && x in classes[size]
      ensures IsJewelKey(x, size)
    {
      var n :| 0 <= n < |table.keys[size]| && table.keys[size][n] == x;
      JewelPacks(table.data.jewels[table.ids[size][n]], table.effects);
    }
  }

  /** `positions` say where the solver keeps the keys. */
  ghost predicate StoredAt(table: Table, size: int, keys: seq<Signature>, positions: seq<int>)
    requires 1 <= size <= 3
  {
    && |positions| == |keys|
    && forall n :: 0 <= n < |keys| ==>
         && 0 <= positions[n] < |table.ids[size]|
         && positions[n] < |table.keys[size]|
         && table.keys[size][positions[n]] == keys[n]
  }

  lemma {:induction false} Positions(table: Table, size: int, keys: seq<Signature>) returns (positions: seq<int>)
    requires table.Valid() && 1 <= size <= 3
    requires forall n :: 0 <= n < |keys| ==> keys[n] in table.keys[size]
    ensures StoredAt(table, size, keys, positions)
  {
    hide StoredAt, Table.Valid;
    if keys == [] {
      positions := [];
      NoPositions(table, size);
    } else {
      var rest := Positions(table, size, keys[1..]);
      var n := PositionOf(table, size, keys[0]);
      positions := [n] + rest;
      MorePositions(table, size, keys, rest, n);
    }
  }

  lemma NoPositions(table: Table, size: int)
    requires 1 <= size <= 3
    ensures StoredAt(table, size, [], [])
  {
  }

  lemma PositionOf(table: Table, size: int, key: Signature) returns (n: int)
    requires table.Valid() && 1 <= size <= 3 && key in table.keys[size]
    ensures 0 <= n < |table.ids[size]| && n < |table.keys[size]| && table.keys[size][n] == key
  {
    n :| 0 <= n < |table.keys[size]| && table.keys[size][n] == key;
  }

  lemma MorePositions(table: Table, size: int, keys: seq<Signature>, rest: seq<int>, n: int)
    requires 1 <= size <= 3 && keys != [] && StoredAt(table, size, keys[1..], rest)
    requires 0 <= n < |table.ids[size]| && n < |table.keys[size]| && table.keys[size][n] == keys[0]
    ensures StoredAt(table, size, keys, [n] + rest)
  {
  }

  /** The keys' bytes and the jewels' true points agree modulo the width of a byte. */
  lemma {:induction false} PointsAgree(table: Table, size: int, keys: seq<Signature>, positions: seq<int>, effect: nat)
    requires table.Valid() && 1 <= size <= 3 && effect < EFFECTS && StoredAt(table, size, keys, positions)
    ensures AsChar(ListPoints(table, size, positions, effect)) == AsChar(PointSum(keys, effect))
  {
    hide AsChar, PosPoints, Table.Valid;
    if keys != [] {
      PointsAgree(table, size, keys[1..], positions[1..], effect);
      PosPointsAgree(table, size, positions[0], effect);
      var a, b := PosPoints(table, size, positions[0], effect), ListPoints(table, size, positions[1..], effect);
      AsCharAdd(a, b);
      AsCharAdd(GetPoints(keys[0], effect), PointSum(keys[1..], effect));
    }
  }

  lemma PosPointsAgree(table: Table, size: int, pos: int, effect: nat)
    requires table.Valid() && 1 <= size <= 3 && effect < EFFECTS && 0 <= pos < |table.ids[size]|
    ensures AsChar(PosPoints(table, size, pos, effect)) == AsChar(GetPoints(table.keys[size][pos], effect))
  {
    JewelPacks(table.data.jewels[table.ids[size][pos]], table.effects);
  }

  /** Positions for the jewels of one choice. */
  ghost predicate Locates(table: Table, choice: Choice, picks: Picks) {
    && |picks| == 3
    && StoredAt(table, 1, choice.ones, picks[0]) && StoredAt(table, 2, choice.twos, picks[1]) && StoredAt(table, 3, choice.threes, picks[2])
  }

  lemma Locate(table: Table, classes: Classes, choice: Choice) returns (picks: Picks)
    requires table.Valid() && Covers(table, classes) && choice.From(classes)
    ensures Locates(table, choice, picks)
  {
    hide Table.Valid, StoredAt;
    var ones := Positions(table, 1, choice.ones);
    var twos := Positions(table, 2, choice.twos);
    var threes := Positions(table, 3, choice.threes);
    picks := [ones, twos, threes];
  }

  lemma LastThreePicks(table: Table, targets: seq<Criteria>, picks: Picks, n: nat, m: int, effect: nat)
    requires table.Valid() && ValidTargets(targets) && |picks| == n + 3 <= |targets| && InRange(table, targets, picks)
    requires effect < EFFECTS
    requires targets[n].slots == 1 && targets[n + 1].slots == 2 && targets[n + 2].slots == 3
    requires targets[n].Factor() == targets[n + 1].Factor() == targets[n + 2].Factor() == m
    ensures PickPoints(table, targets, picks, effect) ==
            Scaled(ListPoints(table, 3, picks[n + 2], effect), m)
            + (Scaled(ListPoints(table, 2, picks[n + 1], effect), m)
               + (Scaled(ListPoints(table, 1, picks[n], effect), m) + PickPoints(table, targets, picks[..n], effect)))
  {
    hide Table.Valid, PickPoints, ListPoints, Scaled;
    var p2, p1 := picks[..n + 2], picks[..n + 1];
    assert p2[..n + 1] == p1 && p1[..n] == picks[..n];
    LastPick(table, targets, picks, effect);
    LastPick(table, targets, p2, effect);
    LastPick(table, targets, p1, effect);
  }

  /** The points of three more criteria, for one choice. */
  lemma ThreePicks(table: Table, targets: seq<Criteria>, picks: Picks, n: nat, choice: Choice, multiplier: int, effect: nat)
    requires table.Valid() && ValidTargets(targets) && |picks| == n + 3 <= |targets| && InRange(table, targets, picks)
    requires effect < EFFECTS && Locates(table, choice, picks[n..])
    requires targets[n].slots == 1 && targets[n + 1].slots == 2 && targets[n + 2].slots == 3
    requires targets[n].Factor() == targets[n + 1].Factor() == targets[n + 2].Factor() == multiplier
    ensures AsChar(PickPoints(table, targets, picks, effect))
         == AsChar(Scaled(ChoicePoints(choice, effect), multiplier) + PickPoints(table, targets, picks[..n], effect))
  {
    hide AsChar, Table.Valid, PickPoints, ListPoints, StoredAt, Scaled, PointSum;
    LastThreePicks(table, targets, picks, n, multiplier, effect);
    PointsAgree(table, 1, choice.ones, picks[n], effect);
    PointsAgree(table, 2, choice.twos, picks[n + 1], effect);
    PointsAgree(table, 3, choice.threes, picks[n + 2], effect);
    ThreeSums(ListPoints(table, 1, picks[n], effect), ListPoints(table, 2, picks[n + 1], effect),
              ListPoints(table, 3, picks[n + 2], effect),
              PointSum(choice.ones, effect), PointSum(choice.twos, effect), PointSum(choice.threes, effect),
              multiplier, PickPoints(table, targets, picks[..n], effect));
  }

  lemma ThreeSums(a: int, b: int, c: int, x: int, y: int, z: int, m: int, rest: int)
    requires AsChar(a) == AsChar(x) && AsChar(b) == AsChar(y) && AsChar(c) == AsChar(z)
    ensures AsChar(Scaled(c, m) + (Scaled(b, m) + (Scaled(a, m) + rest))) == AsChar(Scaled(x + y + z, m) + rest)
  {
    var p, q, r := (a + 128) / 256 - (x + 128) / 256, (b + 128) / 256 - (y + 128) / 256, (c + 128) / 256 - (z + 128) / 256;
    assert a == x + 256 * p && b == y + 256 * q && c == z + 256 * r;
    ThreeProducts(x, y, z, p, q, r, m);
    AsCharCongruent(c * m + (b * m + (a * m + rest)), (x + y + z) * m + rest, (p + q + r) * m);
  }

  lemma ThreeProducts(x: int, y: int, z: int, p: int, q: int, r: int, m: int)
    ensures (z + 256 * r) * m + ((y + 256 * q) * m + (x + 256 * p) * m) == (x + y + z) * m + 256 * ((p + q + r) * m)
  {
    ScaledAdds(z, 256 * r, m);
    ScaledAdds(y, 256 * q, m);
    ScaledAdds(x, 256 * p, m);
    ScaledAdds(x + y, z, m);
    ScaledAdds(x, y, m);
    ScaledAdds(p + q, r, m);
    ScaledAdds(p, q, m);
  }

  /** The picks for a plan, in the order of the criteria. */
  function PlanPicks(free: Picks, body: Picks, multiplier: int): Picks {
    if multiplier > 1 then free + body else free
  }

  lemma PlanPicksComplete(table: Table, plan: Plan, key: Signature, multiplier: int, free: Picks, body: Picks)
    requires table.Valid()
    requires Locates(table, plan.free, free) && Locates(table, plan.body, body)
    requires KeySlots(key) == plan.free.Counts() && BodySlots(key) == plan.body.Counts()
    ensures var targets := Targets(key, multiplier);
            Complete(PlanPicks(free, body, multiplier), table, targets, |targets| - 1, 0, 0)
  {
    hide Table.Valid, KeySlots, BodySlots;
    var targets, picks := Targets(key, multiplier), PlanPicks(free, body, multiplier);
    forall c | 0 <= c < |picks|
      ensures |picks[c]| == Positive(targets[c].num)
      ensures forall n :: 0 <= n < |picks[c]| ==> 0 <= picks[c][n] < |table.ids[targets[c].slots]|
    {
      if c < 3 {
        assert picks[c] == free[c];
      } else {
        assert picks[c] == body[c - 3];
      }
    }
  }

  lemma PlanPicksPoints(table: Table, plan: Plan, key: Signature, multiplier: int, free: Picks, body: Picks, effect: nat)
    requires table.Valid() && effect < EFFECTS
    requires Locates(table, plan.free, free) && Locates(table, plan.body, body)
    requires KeySlots(key) == plan.free.Counts() && BodySlots(key) == plan.body.Counts()
    requires multiplier < 2 ==> plan.body == NO_JEWELS
    ensures InRange(table, Targets(key, multiplier), PlanPicks(free, body, multiplier))
    ensures AsChar(PickPoints(table, Targets(key, multiplier), PlanPicks(free, body, multiplier), effect))
         == AsChar(plan.Points(multiplier, effect))
  {
    hide Table.Valid, KeySlots, BodySlots, AsChar, ChoicePoints, PickPoints, StoredAt;
    var targets, picks := Targets(key, multiplier), PlanPicks(free, body, multiplier);
    PlanPicksComplete(table, plan, key, multiplier, free, body);
    var f, b := ChoicePoints(plan.free, effect), ChoicePoints(plan.body, effect);
    assert picks[..3] == free && free[0..] == free && free[..0] == [];
    ThreePicks(table, targets, free, 0, plan.free, 1, effect);
    NoPickPoints(table, targets, effect);
    if multiplier > 1 {
      assert picks[3..] == body;
      ThreePicks(table, targets, picks, 3, plan.body, multiplier, effect);
      AsCharAdd(b * multiplier, PickPoints(table, targets, free, effect));
      AsCharAdd(b * multiplier, f);
    } else {
      NoChoicePoints(effect);
    }
  }

  lemma NoPickPoints(table: Table, targets: seq<Criteria>, effect: nat)
    requires table.Valid() && ValidTargets(targets) && effect < EFFECTS
    ensures PickPoints(table, targets, [], effect) == 0
  {
  }

  lemma NoChoicePoints(effect: nat)
    requires effect < EFFECTS
    ensures ChoicePoints(NO_JEWELS, effect) == 0
  {
  }

  /** The CHECK in Solve never fails on a key that sums up jewels the solver knows. */
  lemma EmittedKeySolvable(table: Table, classes: Classes, plan: Plan, multiplier: int, slots: Slots, extra: int)
    requires table.Valid() && Covers(table, classes) && plan.From(classes)
    requires plan.FitsIn(slots, extra, multiplier) && extra <= 3
    requires slots.Valid() && slots.Weight() < 24 && slots.two + slots.three < 8
    ensures KeySolvable(table, plan.Total(multiplier), multiplier)
  {
    hide Table.Valid, KeySlots, BodySlots, Plan.Points, Plan.Total, PickPoints, StoredAt, Fits, Choice.From;
    var key := plan.Total(multiplier);
    CoveredAreJewelKeys(table, classes);
    PlanReadsBack(plan, multiplier, classes, slots, extra);
    var free := Locate(table, classes, plan.free);
    var body := Locate(table, classes, plan.body);
    EmptyPicks(table, classes, plan, multiplier, free, body);
    PlanPicksSolve(table, plan, key, multiplier, free, body);
  }

  lemma PlanPicksSolve(table: Table, plan: Plan, key: Signature, multiplier: int, free: Picks, body: Picks)
    requires table.Valid() && Locates(table, plan.free, free) && Locates(table, plan.body, body)
    requires KeySlots(key) == plan.free.Counts() && BodySlots(key) == plan.body.Counts()
    requires multiplier < 2 ==> plan.body == NO_JEWELS
    requires forall e :: 0 <= e < EFFECTS ==> GetPoints(key, e) == AsChar(plan.Points(multiplier, e))
    requires NoPicks(PlanPicks(free, body, multiplier)) ==> KeySlots(key) == NO_SLOTS && key[2] == 0
    ensures KeySolvable(table, key, multiplier)
  {
    hide Table.Valid, KeySlots, BodySlots, Plan.Points, PickPoints, StoredAt, AsChar;
    var targets, picks := Targets(key, multiplier), PlanPicks(free, body, multiplier);
    PlanPicksComplete(table, plan, key, multiplier, free, body);
    forall e | 0 <= e < EFFECTS
      ensures AsChar(GetPoints(InverseOf(key), e) + PickPoints(table, targets, picks, e)) == 0
    {
      PlanPicksPoints(table, plan, key, multiplier, free, body, e);
      CancelledByte(GetPoints(key, e), PickPoints(table, targets, picks, e));
    }
    assert IsSolution(picks, table, targets, |targets| - 1, 0, 0, InverseOf(key));
  }

  lemma EmptyPicks(table: Table, classes: Classes, plan: Plan, multiplier: int, free: Picks, body: Picks)
    requires AreJewelKeys(classes) && plan.From(classes)
    requires plan.body.Counts().Weight() <= 3 && (multiplier < 2 ==> plan.body == NO_JEWELS)
    requires Locates(table, plan.free, free) && Locates(table, plan.body, body)
    ensures NoPicks(PlanPicks(free, body, multiplier)) ==>
            plan.free.Counts() == NO_SLOTS && plan.Total(multiplier)[2] == 0
  {
    hide Pack, Plan.Total, Plan.Packed, Choice.From;
    var picks := PlanPicks(free, body, multiplier);
    if NoPicks(picks) {
      assert picks[0] == picks[1] == picks[2] == [];
      if multiplier > 1 {
        assert picks[3] == picks[4] == picks[5] == [];
        NoWeight(plan.body);
      }
      PlanPacks(plan, multiplier, classes);
      PackedBody(plan, multiplier);
    }
  }

  lemma PackedBody(plan: Plan, multiplier: int)
    requires plan.body == NO_JEWELS
    ensures Pack(plan.Packed(multiplier))[2] == 0
  {
    hide Plan.Points;
  }
}
