/** Picks of jewels that add up to a given key, and how one pick changes what is left to pick. */
module JewelPicks {
  import opened Signatures
  import opened JewelPlans
  import opened JewelSearch
  import opened Datasets
  import opened Keys

  type IdLists = l: seq<seq<int>> | |l| == 4 witness [[], [], [], []]

  /** The jewels of each size, with their keys in the same order. */
  datatype Table = Table(keys: Lists, ids: IdLists, data: Data, effects: seq<Effect>)
  {
    ghost predicate Valid() {
      && |effects| <= EFFECTS && data.Valid()
      && (forall size :: 1 <= size <= 3 ==> |ids[size]| == |keys[size]|)
      && (forall size, n :: 1 <= size <= 3 && 0 <= n < |ids[size]| ==>
            && data.IsJewel(ids[size][n])
            && data.jewels[ids[size][n]].slots == size
            && keys[size][n] == JewelSignature(data.jewels[ids[size][n]], effects))
    }
  }

  /** `num` jewels of `slots` slots, each counting `multiplier` times. */
  datatype Criteria = Criteria(slots: int, num: int, multiplier: int)
  {
    predicate InBody() { multiplier > 1 }
    function Factor(): int { if multiplier > 1 then multiplier else 1 }
  }

  /** For each criterion the positions, in the table, of the jewels picked for it. */
  type Picks = seq<seq<int>>

  ghost predicate ValidTargets(targets: seq<Criteria>) {
    forall c :: 0 <= c < |targets| ==> 1 <= targets[c].slots <= 3
  }

  function Positive(n: int): int { if n < 0 then 0 else n }

  /** The picks are complete for criteria 0..top, of which `done` jewels of the top one are found already;
      the top one's further jewels start at position `from`. */
  ghost predicate Complete(picks: Picks, table: Table, targets: seq<Criteria>, top: int, done: nat, from: nat)
    requires table.Valid() && ValidTargets(targets) && -1 <= top < |targets|
  {
    && |picks| == top + 1
    && (forall c :: 0 <= c < top ==> |picks[c]| == Positive(targets[c].num))
    && (top >= 0 ==> |picks[top]| == Positive(targets[top].num - done))
    && (forall c, n :: 0 <= c <= top && 0 <= n < |picks[c]| ==>
          (if c == top then from else 0) <= picks[c][n] < |table.ids[targets[c].slots]|)
  }

  function PosPoints(table: Table, slots: int, pos: int, effect: nat): int
    requires table.Valid() && 1 <= slots <= 3 && 0 <= pos < |table.ids[slots]| && effect < EFFECTS
  {
    TruePoints(table.data.jewels[table.ids[slots][pos]].effects, table.effects)[effect]
  }

  function ListPoints(table: Table, slots: int, positions: seq<int>, effect: nat): int
    requires table.Valid() && 1 <= slots <= 3 && effect < EFFECTS
    requires forall n :: 0 <= n < |positions| ==> 0 <= positions[n] < |table.ids[slots]|
  {
    if positions == [] then 0
    else PosPoints(table, slots, positions[0], effect) + ListPoints(table, slots, positions[1..], effect)
  }

  predicate InRange(table: Table, targets: seq<Criteria>, picks: Picks)
    requires ValidTargets(targets) && |picks| <= |targets|
  {
    forall c, n :: 0 <= c < |picks| && 0 <= n < |picks[c]| ==> 0 <= picks[c][n] < |table.ids[targets[c].slots]|
  }

  /** The true points of all picks, jewels of the body piece counted several times. */
  function PickPoints(table: Table, targets: seq<Criteria>, picks: Picks, effect: nat): int
    requires table.Valid() && ValidTargets(targets) && |picks| <= |targets| && effect < EFFECTS && InRange(table, targets, picks)
  {
    if picks == [] then 0
    else
      var c := |picks| - 1;
      ListPoints(table, targets[c].slots, picks[c], effect) * targets[c].Factor()
      + PickPoints(table, targets, picks[..c], effect)
  }

  predicate NoPicks(picks: Picks) {
    forall c :: 0 <= c < |picks| ==> picks[c] == []
  }

  /** Adding the picks to the (inverse) key gives the zero key. */
  ghost predicate Cancels(picks: Picks, table: Table, targets: seq<Criteria>, key: Signature)
    requires table.Valid() && ValidTargets(targets) && |picks| <= |targets|
    requires forall c, n :: 0 <= c < |picks| && 0 <= n < |picks[c]| ==> 0 <= picks[c][n] < |table.ids[targets[c].slots]|
  {
    && (forall e :: 0 <= e < EFFECTS ==> AsChar(GetPoints(key, e) + PickPoints(table, targets, picks, e)) == 0)
    && (NoPicks(picks) ==> key[0] == key[1] == key[2] == 0)
  }

  ghost predicate IsSolution(picks: Picks, table: Table, targets: seq<Criteria>, top: int, done: nat, from: nat, key: Signature)
    requires table.Valid() && ValidTargets(targets) && -1 <= top < |targets|
  {
    Complete(picks, table, targets, top, done, from) && Cancels(picks, table, targets, key)
  }

  ghost predicate Solvable(table: Table, targets: seq<Criteria>, top: int, done: nat, from: nat, key: Signature)
    requires table.Valid() && ValidTargets(targets) && -1 <= top < |targets|
  {
    exists picks: Picks :: IsSolution(picks, table, targets, top, done, from, key)
  }

  /** The ids of the picks outside (or inside) the body piece, in the order the search finds them. */
  function PickedIds(table: Table, targets: seq<Criteria>, picks: Picks, inBody: bool): seq<int>
    requires table.Valid() && ValidTargets(targets) && |picks| <= |targets|
    requires forall c, n :: 0 <= c < |picks| && 0 <= n < |picks[c]| ==> 0 <= picks[c][n] < |table.ids[targets[c].slots]|
  {
    if picks == [] then []
    else
      var c := |picks| - 1;
      (if targets[c].InBody() == inBody then IdsOf(table, targets[c].slots, picks[c]) else [])
      + PickedIds(table, targets, picks[..c], inBody)
  }

  /** The key after the jewel at position `pos` has been added. */
  function AddPick(table: Table, target: Criteria, pos: int, key: Signature): Signature
    requires table.Valid() && 1 <= target.slots <= 3 && 0 <= pos < |table.ids[target.slots]|
  {
    var jewelKey := table.keys[target.slots][pos];
    Or(key, if target.multiplier > 1 then Times(jewelKey, target.multiplier) else jewelKey)
  }

  // ---------- One step of the search ----------

  lemma LastPick(table: Table, targets: seq<Criteria>, picks: Picks, effect: nat)
    requires table.Valid() && ValidTargets(targets) && 0 < |picks| <= |targets| && InRange(table, targets, picks)
    requires effect < EFFECTS
    ensures var c := |picks| - 1;
            PickPoints(table, targets, picks, effect) ==
            Scaled(ListPoints(table, targets[c].slots, picks[c], effect), targets[c].Factor())
            + PickPoints(table, targets, picks[..c], effect)
  {
  }

  lemma AddPickPoints(table: Table, target: Criteria, pos: int, key: Signature, effect: nat, rest: int)
    requires table.Valid() && 1 <= target.slots <= 3 && 0 <= pos < |table.ids[target.slots]| && effect < EFFECTS
    ensures AsChar(GetPoints(AddPick(table, target, pos, key), effect) + rest)
         == AsChar(GetPoints(key, effect) + Scaled(PosPoints(table, target.slots, pos, effect), target.Factor()) + rest)
  {
    hide PosPoints, Table.Valid, Or, Times;
    var points, key0 := PosPoints(table, target.slots, pos, effect), GetPoints(key, effect);
    KeyAtPoints(table, target.slots, pos, effect);
    PickAdds(table, target, pos, key, effect);
    AsCharTimes(points, target.multiplier);
    AsCharAdds(key0, points * target.Factor(), rest);
  }

  lemma KeyAtPoints(table: Table, slots: int, pos: int, effect: nat)
    requires table.Valid() && 1 <= slots <= 3 && 0 <= pos < |table.ids[slots]| && effect < EFFECTS
    ensures GetPoints(table.keys[slots][pos], effect) == AsChar(PosPoints(table, slots, pos, effect))
  {
    hide JewelSignature, TruePoints;
    JewelPacks(table.data.jewels[table.ids[slots][pos]], table.effects);
  }

  lemma PickAdds(table: Table, target: Criteria, pos: int, key: Signature, effect: nat)
    requires table.Valid() && 1 <= target.slots <= 3 && 0 <= pos < |table.ids[target.slots]| && effect < EFFECTS
    ensures GetPoints(AddPick(table, target, pos, key), effect) == AsChar(GetPoints(key, effect)
      + if target.multiplier > 1 then AsChar(GetPoints(table.keys[target.slots][pos], effect) * target.multiplier)
        else GetPoints(table.keys[target.slots][pos], effect))
  {
    hide JewelSignature, TruePoints;
  }

  lemma AsCharAdds(x: int, y: int, z: int)
    ensures AsChar(AsChar(x + AsChar(y)) + z) == AsChar(x + y + z)
  {
    var q, r := (y + 128) / 256, (x + AsChar(y) + 128) / 256;
    AsCharCongruent(AsChar(x + AsChar(y)) + z, x + y + z, -q - r);
  }

  lemma {:induction false} ListPointsTakeOut(table: Table, slots: int, positions: seq<int>, effect: nat, n: nat)
    requires table.Valid() && 1 <= slots <= 3 && effect < EFFECTS && n < |positions|
    requires forall n :: 0 <= n < |positions| ==> 0 <= positions[n] < |table.ids[slots]|
    ensures ListPoints(table, slots, positions, effect)
         == PosPoints(table, slots, positions[n], effect)
            + ListPoints(table, slots, positions[..n] + positions[n + 1..], effect)
  {
    if n == 0 {
      assert positions[..0] + positions[1..] == positions[1..];
    } else {
      ListPointsTakeOut(table, slots, positions[1..], effect, n - 1);
      assert (positions[..n] + positions[n + 1..])[1..] == positions[1..][..n - 1] + positions[1..][n..];
    }
  }

  /** The picks without the `n`-th pick of the top criterion. */
  function Unpick(picks: Picks, top: nat, n: nat): Picks
    requires top < |picks| && n < |picks[top]|
  {
    picks[top := picks[top][..n] + picks[top][n + 1..]]
  }

  lemma UnpickComplete(picks: Picks, table: Table, targets: seq<Criteria>, top: nat, done: nat, from: nat, n: nat)
    requires table.Valid() && ValidTargets(targets) && top < |targets|
    requires Complete(picks, table, targets, top, done, from) && n < |picks[top]|
    ensures Complete(Unpick(picks, top, n), table, targets, top, done + 1, from)
  {
  }

  /** A pick of the top criterion may be made first. */
  lemma TakePick(picks: Picks, table: Table, targets: seq<Criteria>, top: nat, done: nat, from: nat, key: Signature, n: nat)
    requires table.Valid() && ValidTargets(targets) && top < |targets|
    requires Complete(picks, table, targets, top, done, from) && n < |picks[top]| && picks[top][n] == from
    ensures Complete(Unpick(picks, top, n), table, targets, top, done + 1, from)
    ensures Cancels(picks, table, targets, key) <==>
            Cancels(Unpick(picks, top, n), table, targets, AddPick(table, targets[top], from, key))
  {
    hide PickPoints, PosPoints, JewelSignature, Table.Valid, AsChar;
    UnpickComplete(picks, table, targets, top, done, from, n);
    var rest, key' := Unpick(picks, top, n), AddPick(table, targets[top], from, key);
    forall e | 0 <= e < EFFECTS
      ensures AsChar(GetPoints(key, e) + PickPoints(table, targets, picks, e))
           == AsChar(GetPoints(key', e) + PickPoints(table, targets, rest, e))
    {
      TakePickPoints(picks, table, targets, top, done, from, key, n, e);
    }
    assert !NoPicks(picks);
  }

  lemma TakePickPoints(picks: Picks, table: Table, targets: seq<Criteria>, top: nat, done: nat, from: nat,
                       key: Signature, n: nat, e: nat)
    requires table.Valid() && ValidTargets(targets) && top < |targets| && e < EFFECTS
    requires Complete(picks, table, targets, top, done, from) && n < |picks[top]| && picks[top][n] == from
    ensures Complete(Unpick(picks, top, n), table, targets, top, done + 1, from)
    ensures AsChar(GetPoints(key, e) + PickPoints(table, targets, picks, e))
         == AsChar(GetPoints(AddPick(table, targets[top], from, key), e)
                   + PickPoints(table, targets, Unpick(picks, top, n), e))
  {
    hide AddPick, AsChar, PosPoints, PickPoints, Table.Valid, Scaled, Criteria.Factor, Complete, Unpick;
    UnpickComplete(picks, table, targets, top, done, from, n);
    CompleteInRange(picks, table, targets, top, done, from);
    CompleteInRange(Unpick(picks, top, n), table, targets, top, done + 1, from);
    UnpickPoints(picks, table, targets, top, n, e);
    AddPickPoints(table, targets[top], from, key, e, PickPoints(table, targets, Unpick(picks, top, n), e));
  }

  lemma CompleteInRange(picks: Picks, table: Table, targets: seq<Criteria>, top: nat, done: nat, from: nat)
    requires table.Valid() && ValidTargets(targets) && top < |targets| && Complete(picks, table, targets, top, done, from)
    ensures |picks| == top + 1 && InRange(table, targets, picks)
  {
    hide Table.Valid;
  }

  /** Without one of its last picks. */
  lemma UnpickPoints(picks: Picks, table: Table, targets: seq<Criteria>, top: nat, n: nat, e: nat)
    requires table.Valid() && ValidTargets(targets) && top < |targets| && e < EFFECTS && |picks| == top + 1 && n < |picks[top]|
    requires InRange(table, targets, picks) && |Unpick(picks, top, n)| == top + 1 && InRange(table, targets, Unpick(picks, top, n))
    ensures PickPoints(table, targets, picks, e)
         == Scaled(PosPoints(table, targets[top].slots, picks[top][n], e), targets[top].Factor())
            + PickPoints(table, targets, Unpick(picks, top, n), e)
  {
    hide PosPoints, ListPoints, PickPoints, Table.Valid, Scaled, Criteria.Factor;
    var rest, target := Unpick(picks, top, n), targets[top];
    assert rest[..top] == picks[..top];
    ListPointsTakeOut(table, target.slots, picks[top], e, n);
    LastPick(table, targets, picks, e);
    LastPick(table, targets, rest, e);
    ScaledAdds(PosPoints(table, target.slots, picks[top][n], e), ListPoints(table, target.slots, rest[top], e), target.Factor());
  }

  /** Either the jewel at position `from` is picked once more, or picking starts later. */
  lemma SolvableStep(table: Table, targets: seq<Criteria>, top: nat, done: nat, from: nat, key: Signature)
    requires table.Valid() && ValidTargets(targets) && top < |targets|
    requires done < targets[top].num && from < |table.ids[targets[top].slots]|
    ensures Solvable(table, targets, top, done, from, key) <==>
            || Solvable(table, targets, top, done + 1, from, AddPick(table, targets[top], from, key))
            || Solvable(table, targets, top, done, from + 1, key)
  {
    hide Cancels, AddPick;
    var key', done', from' := AddPick(table, targets[top], from, key), done + 1, from + 1;
    if picks :| IsSolution(picks, table, targets, top, done, from, key) {
      if n :| 0 <= n < |picks[top]| && picks[top][n] == from {
        TakePick(picks, table, targets, top, done, from, key, n);
        assert IsSolution(Unpick(picks, top, n), table, targets, top, done', from, key');
      } else {
        assert IsSolution(picks, table, targets, top, done, from', key);
      }
    }
    if rest :| IsSolution(rest, table, targets, top, done', from, key') {
      PutPick(rest, table, targets, top, done, from, key);
    }
    if picks :| IsSolution(picks, table, targets, top, done, from', key) {
      assert IsSolution(picks, table, targets, top, done, from, key);
    }
  }

  lemma PutPick(rest: Picks, table: Table, targets: seq<Criteria>, top: nat, done: nat, from: nat, key: Signature)
    requires table.Valid() && ValidTargets(targets) && top < |targets|
    requires done < targets[top].num && from < |table.ids[targets[top].slots]|
    requires IsSolution(rest, table, targets, top, done + 1, from, AddPick(table, targets[top], from, key))
    ensures IsSolution(rest[top := [from] + rest[top]], table, targets, top, done, from, key)
  {
    hide Cancels, AddPick;
    var picks := rest[top := [from] + rest[top]];
    assert Complete(picks, table, targets, top, done, from);
    TakePick(picks, table, targets, top, done, from, key, 0);
    assert picks[top][..0] + picks[top][1..] == rest[top];
    assert Unpick(picks, top, 0) == rest;
  }

  /** A criterion that needs no more jewels is left. */
  lemma SolvableDown(table: Table, targets: seq<Criteria>, top: nat, done: nat, from: nat, key: Signature)
    requires table.Valid() && ValidTargets(targets) && top < |targets| && done >= targets[top].num
    ensures Solvable(table, targets, top, done, from, key) <==> Solvable(table, targets, top - 1, 0, 0, key)
  {
    hide Table.Valid, PickPoints;
    var top' := top - 1;
    if picks :| IsSolution(picks, table, targets, top, done, from, key) {
      DropCriterion(picks, table, targets, top, done, from, key);
      assert IsSolution(picks[..top], table, targets, top', 0, 0, key);
    }
    if picks :| IsSolution(picks, table, targets, top', 0, 0, key) {
      LeaveCriterion(picks, table, targets, top, done, from, key);
    }
  }

  lemma DropCriterion(picks: Picks, table: Table, targets: seq<Criteria>, top: nat, done: nat, from: nat, key: Signature)
    requires table.Valid() && ValidTargets(targets) && top < |targets| && done >= targets[top].num
    requires IsSolution(picks, table, targets, top, done, from, key)
    ensures IsSolution(picks[..top], table, targets, top - 1, 0, 0, key)
  {
    hide Table.Valid, PosPoints;
    assert NoPicks(picks[..top]) ==> NoPicks(picks);
  }

  lemma LeaveCriterion(picks: Picks, table: Table, targets: seq<Criteria>, top: nat, done: nat, from: nat, key: Signature)
    requires table.Valid() && ValidTargets(targets) && top < |targets| && done >= targets[top].num
    requires IsSolution(picks, table, targets, top - 1, 0, 0, key)
    ensures IsSolution(picks + [[]], table, targets, top, done, from, key)
  {
    assert (picks + [[]])[..top] == picks;
    assert NoPicks(picks + [[]]) ==> NoPicks(picks) by {
      assert forall c :: 0 <= c < |picks| ==> (picks + [[]])[c] == picks[c];
    }
  }

  // ---------- What a solution is worth ----------

  function IdsOf(table: Table, slots: int, positions: seq<int>): (ids: seq<int>)
    requires table.Valid() && 1 <= slots <= 3
    requires forall n :: 0 <= n < |positions| ==> 0 <= positions[n] < |table.ids[slots]|
    ensures |ids| == |positions|
    ensures table.data.AreJewels(ids) && forall n :: 0 <= n < |ids| ==> table.data.jewels[ids[n]].slots == slots
  {
    seq(|positions|, n requires 0 <= n < |positions| => table.ids[slots][positions[n]])
  }

  lemma {:induction false} IdsOfPoints(table: Table, slots: int, positions: seq<int>, effect: nat)
    requires table.Valid() && 1 <= slots <= 3 && effect < |table.effects|
    requires forall n :: 0 <= n < |positions| ==> 0 <= positions[n] < |table.ids[slots]|
    ensures SkillPoints(table.data, IdsOf(table, slots, positions), table.effects[effect].id)
         == ListPoints(table, slots, positions, effect)
  {
    hide Table.Valid, PosPoints, PointsOf;
    if positions != [] {
      var ids := IdsOf(table, slots, positions);
      IdsOfPoints(table, slots, positions[1..], effect);
      assert ids[1..] == IdsOf(table, slots, positions[1..]);
      PosPointsOf(table, slots, positions[0], effect);
    }
  }

  lemma PosPointsOf(table: Table, slots: int, pos: int, effect: nat)
    requires table.Valid() && 1 <= slots <= 3 && effect < |table.effects| && 0 <= pos < |table.ids[slots]|
    ensures PosPoints(table, slots, pos, effect)
         == PointsOf(table.data.jewels[table.ids[slots][pos]].effects, table.effects[effect].id)
  {
  }

  /** The number of picks of one size outside (or inside) the body piece. */
  function PickCount(targets: seq<Criteria>, picks: Picks, inBody: bool, size: int): int
    requires |picks| <= |targets|
  {
    if picks == [] then 0
    else
      var c := |picks| - 1;
      (if targets[c].InBody() == inBody && targets[c].slots == size then |picks[c]| else 0)
      + PickCount(targets, picks[..c], inBody, size)
  }

  /** The number of jewels of one size that the first `n` criteria ask for. */
  function Asked(targets: seq<Criteria>, n: nat, inBody: bool, size: int): int
    requires n <= |targets|
    decreases n
  {
    if n == 0 then 0
    else
      var target := targets[n - 1];
      (if target.InBody() == inBody && target.slots == size then Positive(target.num) else 0)
      + Asked(targets, n - 1, inBody, size)
  }

  lemma {:induction false} PickCountAsked(targets: seq<Criteria>, picks: Picks, inBody: bool, size: int)
    requires |picks| <= |targets| && forall c :: 0 <= c < |picks| ==> |picks[c]| == Positive(targets[c].num)
    ensures PickCount(targets, picks, inBody, size) == Asked(targets, |picks|, inBody, size)
  {
    if picks != [] {
      PickCountAsked(targets, picks[..|picks| - 1], inBody, size);
    }
  }

  /** The ids picked have the sizes asked for. */
  lemma {:induction false} PickedSizes(table: Table, targets: seq<Criteria>, picks: Picks, inBody: bool, size: int)
    requires table.Valid() && ValidTargets(targets) && |picks| <= |targets|
    requires forall c, n :: 0 <= c < |picks| && 0 <= n < |picks[c]| ==> 0 <= picks[c][n] < |table.ids[targets[c].slots]|
    ensures var ids := PickedIds(table, targets, picks, inBody);
      && table.data.AreJewels(ids)
      && SizeCount(table.data, ids, size) == PickCount(targets, picks, inBody, size)
  {
    hide Table.Valid, IdsOf;
    if picks != [] {
      var c := |picks| - 1;
      PickedSizes(table, targets, picks[..c], inBody, size);
      var top, below := IdsOf(table, targets[c].slots, picks[c]), PickedIds(table, targets, picks[..c], inBody);
      SizesOfSame(table.data, top, targets[c].slots, size);
      SizesConcat(table.data, top, below, size);
      assert PickedIds(table, targets, picks, inBody) == if targets[c].InBody() == inBody then top + below else [] + below;
      assert [] + below == below;
    }
  }

  /** The points of the ids picked are those the search has summed up. */
  lemma {:induction false} PickedPoints(table: Table, targets: seq<Criteria>, picks: Picks, m: int, effect: nat)
    requires table.Valid() && ValidTargets(targets) && |picks| <= |targets| && effect < |table.effects|
    requires forall c, n :: 0 <= c < |picks| && 0 <= n < |picks[c]| ==> 0 <= picks[c][n] < |table.ids[targets[c].slots]|
    requires forall c :: 0 <= c < |picks| && targets[c].InBody() ==> targets[c].multiplier == m
    ensures var free, body := PickedIds(table, targets, picks, false), PickedIds(table, targets, picks, true);
      && table.data.AreJewels(free) && table.data.AreJewels(body)
      && PickPoints(table, targets, picks, effect)
         == SkillPoints(table.data, free, table.effects[effect].id)
            + SkillPoints(table.data, body, table.effects[effect].id) * m
  {
    hide Table.Valid, PosPoints, ListPoints, SkillPoints, IdsOf;
    if picks != [] {
      var c, skill := |picks| - 1, table.effects[effect].id;
      var target, lower := targets[c], picks[..c];
      var ids := IdsOf(table, target.slots, picks[c]);
      PickedPoints(table, targets, lower, m, effect);
      IdsOfPoints(table, target.slots, picks[c], effect);
      var below := PickedIds(table, targets, lower, target.InBody());
      PointsConcat(table.data, ids, below, skill);
      ScaledAdds(SkillPoints(table.data, ids, skill), SkillPoints(table.data, below, skill), m);
      assert PickedIds(table, targets, picks, target.InBody()) == ids + below;
      assert PickedIds(table, targets, picks, !target.InBody()) == PickedIds(table, targets, lower, !target.InBody());
    } else {
      NoLists(table.data, table.effects[effect].id);
    }
  }

  lemma NoLists(data: Data, skill: int)
    ensures SkillPoints(data, [], skill) == 0
  {
  }

  lemma SolvedWhenZero(table: Table, targets: seq<Criteria>, top: int, done: nat, from: nat, key: Signature)
    requires table.Valid() && ValidTargets(targets) && top == -1
    ensures IsSolution([], table, targets, top, done, from, key) <==> IsZero(key)
    ensures Solvable(table, targets, top, done, from, key) <==> IsZero(key)
    ensures forall inBody :: PickedIds(table, targets, [], inBody) == []
  {
    var none: Picks := [];
    assert IsSolution(none, table, targets, top, done, from, key) <==> IsZero(key) by {
      assert forall i :: EFFECTS_BEGIN <= i < BYTES ==> key[i] == GetPoints(key, i - EFFECTS_BEGIN);
      assert forall e :: 0 <= e < EFFECTS ==> GetPoints(key, e) == key[EFFECTS_BEGIN + e];
    }
    assert forall picks: Picks :: |picks| == 0 ==> picks == none;
  }

  lemma StartEarlier(picks: Picks, table: Table, targets: seq<Criteria>, top: nat, done: nat, from: nat, start: nat, key: Signature)
    requires table.Valid() && ValidTargets(targets) && top < |targets| && start <= from
    requires IsSolution(picks, table, targets, top, done, from, key)
    ensures IsSolution(picks, table, targets, top, done, start, key)
    ensures Solvable(table, targets, top, done, start, key)
  {
    hide Cancels;
    assert IsSolution(picks, table, targets, top, done, start, key);
  }

  lemma NothingLeft(table: Table, targets: seq<Criteria>, top: nat, done: nat, from: nat, key: Signature)
    requires table.Valid() && ValidTargets(targets) && top < |targets|
    requires done < targets[top].num && from >= |table.ids[targets[top].slots]|
    ensures !Solvable(table, targets, top, done, from, key)
  {
    hide Cancels;
    forall picks: Picks
      ensures !Complete(picks, table, targets, top, done, from)
    {
      if |picks| == top + 1 && |picks[top]| > 0 {
        assert !(from <= picks[top][0] < |table.ids[targets[top].slots]|);
      }
    }
  }

  lemma PickedNone(table: Table, targets: seq<Criteria>, picks: Picks)
    requires table.Valid() && ValidTargets(targets) && |picks| < |targets|
    requires forall c, n :: 0 <= c < |picks| && 0 <= n < |picks[c]| ==> 0 <= picks[c][n] < |table.ids[targets[c].slots]|
    ensures forall inBody :: PickedIds(table, targets, picks + [[]], inBody) == PickedIds(table, targets, picks, inBody)
  {
    assert (picks + [[]])[..|picks|] == picks;
  }

  lemma PickedOne(table: Table, targets: seq<Criteria>, picks: Picks, top: nat, pos: nat)
    requires table.Valid() && ValidTargets(targets) && |picks| == top + 1 <= |targets| && pos < |table.ids[targets[top].slots]|
    requires forall c, n :: 0 <= c < |picks| && 0 <= n < |picks[c]| ==> 0 <= picks[c][n] < |table.ids[targets[c].slots]|
    ensures forall inBody ::
      PickedIds(table, targets, picks[top := [pos] + picks[top]], inBody)
      == (if targets[top].InBody() == inBody then [table.ids[targets[top].slots][pos]] else [])
         + PickedIds(table, targets, picks, inBody)
  {
    hide Table.Valid, IdsOf;
    var more, slots := picks[top := [pos] + picks[top]], targets[top].slots;
    assert more[..top] == picks[..top];
    IdsOfCons(table, slots, pos, picks[top]);
  }

  lemma IdsOfCons(table: Table, slots: int, pos: int, positions: seq<int>)
    requires table.Valid() && 1 <= slots <= 3 && 0 <= pos < |table.ids[slots]|
    requires forall n :: 0 <= n < |positions| ==> 0 <= positions[n] < |table.ids[slots]|
    ensures IdsOf(table, slots, [pos] + positions) == [table.ids[slots][pos]] + IdsOf(table, slots, positions)
  {
    hide Table.Valid;
    assert ([pos] + positions)[1..] == positions;
  }
}
