/** Recovering concrete jewels from a summed key by backtracking. */
module JewelSolvers {
  import opened Packing
  import opened Signatures
  import opened SignatureBytes
  import opened JewelSearch
  import opened Datasets
  import opened Keys
  import opened JewelPicks

  /** How often each jewel is used, outside and inside the body piece. */
  datatype JewelPlan = JewelPlan(free: map<int, nat>, body: map<int, nat>)

  function Targets(key: Signature, multiplier: int): seq<Criteria> {
    var free, body := KeySlots(key), BodySlots(key);
    if multiplier > 1 then
      [Criteria(1, free.one, 1), Criteria(2, free.two, 1), Criteria(3, free.three, 1),
       Criteria(1, body.one, multiplier), Criteria(2, body.two, multiplier), Criteria(3, body.three, multiplier)]
    else
      [Criteria(1, free.one, 1), Criteria(2, free.two, 1), Criteria(3, free.three, 1)]
  }

  ghost predicate KeySolvable(table: Table, key: Signature, multiplier: int)
    requires table.Valid()
  {
    Solvable(table, Targets(key, multiplier), |Targets(key, multiplier)| - 1, 0, 0, InverseOf(key))
  }

  predicate InTable(table: Table, ids: seq<int>) {
    forall n :: 0 <= n < |ids| ==> exists size :: 1 <= size <= 3 && ids[n] in table.ids[size]
  }

  /** The jewels have the sizes that the key records, and the points, modulo the width of a byte. */
  ghost predicate Solves(table: Table, ids: seq<int>, bodyIds: seq<int>, key: Signature, multiplier: int)
    requires table.Valid() && |table.effects| <= EFFECTS
  {
    && table.data.AreJewels(ids) && table.data.AreJewels(bodyIds)
    && InTable(table, ids) && InTable(table, bodyIds)
    && SizesOf(table.data, ids) == PositiveSlots(KeySlots(key))
    && SizesOf(table.data, bodyIds) == (if multiplier > 1 then PositiveSlots(BodySlots(key)) else NO_SLOTS)
    && forall e :: 0 <= e < |table.effects| ==>
         AsChar(SkillPoints(table.data, ids, table.effects[e].id)
                + SkillPoints(table.data, bodyIds, table.effects[e].id) * multiplier) == GetPoints(key, e)
  }

  function PositiveSlots(slots: Slots): Slots {
    Slots(Positive(slots.one), Positive(slots.two), Positive(slots.three))
  }

  ghost predicate Counts(counts: map<int, nat>, ids: seq<int>) {
    forall id :: (id in counts <==> id in ids) && (id in ids ==> counts[id] == multiset(ids)[id])
  }

  class JewelSolver {
    const table: Table

    constructor (data: Data, effects: seq<Effect>, filter: JewelFilter)
      requires data.Valid() && |effects| <= EFFECTS
      ensures table.Valid() && table.data == data && table.effects == effects
      ensures forall size, id :: 1 <= size <= 3 ==>
        (id in table.ids[size] <==>
           data.IsJewel(id) && filter.Validate(id) && data.jewels[id].slots == size
           && JewelValid(data.jewels[id], seq(|effects|, e requires 0 <= e < |effects| => effects[e].id)))
    {
      var skillIds := seq(|effects|, e requires 0 <= e < |effects| => effects[e].id);
      var keys: Lists := [[], [], [], []];
      var ids: IdLists := [[], [], [], []];
      for i := 0 to |data.jewels|
        invariant Table(keys, ids, data, effects).Valid()
        invariant forall size, id :: 1 <= size <= 3 ==>
          (id in ids[size] <==> 0 <= id < i && filter.Validate(id) && data.jewels[id].slots == size
                                && JewelValid(data.jewels[id], skillIds))
      {
        if filter.Validate(i) {
          var jewel := data.jewels[i];
          if JewelValid(jewel, skillIds) {
            keys := keys[jewel.slots := keys[jewel.slots] + [JewelSignature(jewel, effects)]];
            ids := ids[jewel.slots := ids[jewel.slots] + [i]];
          }
        }
      }
      table := Table(keys, ids, data, effects);
    }

    /** Backtracking over the criteria from `top` down; finds a solution whenever there is one. */
    method Search(targets: seq<Criteria>, top: int, criteriaId: nat, jewelId: nat, key: Signature,
                  ids: seq<int>, bodyIds: seq<int>)
      returns (found: bool, ids': seq<int>, bodyIds': seq<int>, ghost picks: Picks)
      requires table.Valid() && ValidTargets(targets) && -1 <= top < |targets|
      ensures found <==> Solvable(table, targets, top, criteriaId, jewelId, key)
      ensures found ==>
        && IsSolution(picks, table, targets, top, criteriaId, jewelId, key)
        && ids' == ids + PickedIds(table, targets, picks, false)
        && bodyIds' == bodyIds + PickedIds(table, targets, picks, true)
      ensures !found ==> ids' == ids && bodyIds' == bodyIds
      decreases top + 1, if top >= 0 then targets[top].num - criteriaId else 0
    {
      hide Solvable, Cancels, AddPick, PickedIds, IsZero;
      ids', bodyIds', picks := ids, bodyIds, [];
      if -1 == top {
        found := SignatureBuffer.TestZero(key);
        SolvedWhenZero(table, targets, top, criteriaId, jewelId, key);
        return;
      }
      if criteriaId >= targets[top].num {
        SolvableDown(table, targets, top, criteriaId, jewelId, key);
        found, ids', bodyIds', picks := Search(targets, top - 1, 0, 0, key, ids, bodyIds);
        if found {
          LeaveCriterion(picks, table, targets, top, criteriaId, jewelId, key);
          PickedNone(table, targets, picks);
          picks := picks + [[]];
        }
        return;
      }
      var slots, multiplier := targets[top].slots, targets[top].multiplier;
      var seq_ := jewelId;
      while seq_ < |table.ids[slots]|
        invariant ids' == ids && bodyIds' == bodyIds && seq_ >= jewelId
        invariant Solvable(table, targets, top, criteriaId, jewelId, key) <==>
                  Solvable(table, targets, top, criteriaId, seq_, key)
      {
        SolvableStep(table, targets, top, criteriaId, seq_, key);
        var next := AddPick(table, targets[top], seq_, key);
        var id := table.ids[slots][seq_];
        if multiplier > 1 {
          bodyIds' := bodyIds' + [id];
        } else {
          ids' := ids' + [id];
        }
        found, ids', bodyIds', picks := Search(targets, top, criteriaId + 1, seq_, next, ids', bodyIds');
        if found {
          PutPick(picks, table, targets, top, criteriaId, seq_, key);
          PickedOne(table, targets, picks, top, seq_);
          picks := picks[top := [seq_] + picks[top]];
          StartEarlier(picks, table, targets, top, criteriaId, seq_, jewelId, key);
          return;
        }
        if multiplier > 1 {
          bodyIds' := bodyIds'[..|bodyIds'| - 1];
        } else {
          ids' := ids'[..|ids'| - 1];
        }
        seq_ := seq_ + 1;
      }
      NothingLeft(table, targets, top, criteriaId, seq_, key);
      found := false;
    }

    /** The jewels behind a key. `solved` is what the CHECK in Solve tests. */
    method Solve(key: Signature, multiplier: int)
      returns (solved: bool, plan: JewelPlan, ghost ids: seq<int>, ghost bodyIds: seq<int>)
      requires table.Valid() && |table.effects| <= EFFECTS
      ensures solved <==> KeySolvable(table, key, multiplier)
      ensures solved ==> Solves(table, ids, bodyIds, key, multiplier)
      ensures solved ==> Counts(plan.free, ids) && Counts(plan.body, bodyIds)
    {
      hide Solvable, Solves;
      var targets := Targets(key, multiplier);
      var found, free, body, picks := Search(targets, |targets| - 1, 0, 0, InverseOf(key), [], []);
      solved, ids, bodyIds := found, free, body;
      plan := JewelPlan(map[], map[]);
      if found {
        SolutionSolves(table, picks, key, multiplier);
        assert free == PickedIds(table, targets, picks, false) && body == PickedIds(table, targets, picks, true);
        var freeCounts := CountIds(free);
        var bodyCounts := CountIds(body);
        plan := JewelPlan(freeCounts, bodyCounts);
      }
    }

    static method CountIds(ids: seq<int>) returns (counts: map<int, nat>)
      ensures Counts(counts, ids)
    {
      counts := map[];
      for n := 0 to |ids|
        invariant Counts(counts, ids[..n])
      {
        assert ids[..n + 1] == ids[..n] + [ids[n]];
        if ids[n] in counts {
          counts := counts[ids[n] := counts[ids[n]] + 1];
        } else {
          counts := counts[ids[n] := 1];
        }
      }
      assert ids[..|ids|] == ids;
    }
  }

  // ---------- What Solve returns ----------

  lemma {:induction false} PickedInTable(table: Table, targets: seq<Criteria>, picks: Picks, inBody: bool)
    requires table.Valid() && ValidTargets(targets) && |picks| <= |targets|
    requires forall c, n :: 0 <= c < |picks| && 0 <= n < |picks[c]| ==> 0 <= picks[c][n] < |table.ids[targets[c].slots]|
    ensures InTable(table, PickedIds(table, targets, picks, inBody))
  {
    hide Table.Valid;
    if picks != [] {
      var c := |picks| - 1;
      PickedInTable(table, targets, picks[..c], inBody);
      assert forall n :: 0 <= n < |picks[c]| ==>
        IdsOf(table, targets[c].slots, picks[c])[n] in table.ids[targets[c].slots];
    }
  }

  function CountFor(slots: Slots, size: int): int {
    if size == 1 then slots.one else if size == 2 then slots.two else if size == 3 then slots.three else 0
  }

  /** The criteria ask for what the key records. */
  lemma TargetsAsk(key: Signature, multiplier: int, inBody: bool, size: int)
    ensures var targets := Targets(key, multiplier);
            Asked(targets, |targets|, inBody, size)
            == if !inBody then Positive(CountFor(KeySlots(key), size))
               else if multiplier > 1 then Positive(CountFor(BodySlots(key), size))
               else 0
  {
    hide KeySlots, BodySlots;
    var targets := Targets(key, multiplier);
    ThreeAsked(targets, 0, 1, KeySlots(key), inBody, size);
    if multiplier > 1 {
      ThreeAsked(targets, 3, multiplier, BodySlots(key), inBody, size);
    }
  }

  lemma ThreeAsked(targets: seq<Criteria>, n: nat, multiplier: int, slots: Slots, inBody: bool, size: int)
    requires n + 3 <= |targets|
    requires targets[n] == Criteria(1, slots.one, multiplier)
    requires targets[n + 1] == Criteria(2, slots.two, multiplier)
    requires targets[n + 2] == Criteria(3, slots.three, multiplier)
    ensures Asked(targets, n + 3, inBody, size)
         == Asked(targets, n, inBody, size)
            + if (multiplier > 1) == inBody then Positive(CountFor(slots, size)) else 0
  {
    var n1, n2, n3 := n + 1, n + 2, n + 3;
    assert Asked(targets, n3, inBody, size) == (if (multiplier > 1) == inBody && size == 3 then Positive(slots.three) else 0)
      + Asked(targets, n2, inBody, size);
    assert Asked(targets, n2, inBody, size) == (if (multiplier > 1) == inBody && size == 2 then Positive(slots.two) else 0)
      + Asked(targets, n1, inBody, size);
  }

  lemma SolutionSizes(table: Table, picks: Picks, key: Signature, multiplier: int, inBody: bool)
    requires table.Valid()
    requires var targets := Targets(key, multiplier);
             Complete(picks, table, targets, |targets| - 1, 0, 0)
    ensures var ids := PickedIds(table, Targets(key, multiplier), picks, inBody);
      && table.data.AreJewels(ids)
      && SizesOf(table.data, ids) == (if !inBody then PositiveSlots(KeySlots(key))
                                      else if multiplier > 1 then PositiveSlots(BodySlots(key)) else NO_SLOTS)
  {
    hide Table.Valid, PickedIds, KeySlots, BodySlots, SizeCount;
    var targets := Targets(key, multiplier);
    PickedSizes(table, targets, picks, inBody, 1);
    forall size | 1 <= size <= 3
      ensures SizeCount(table.data, PickedIds(table, targets, picks, inBody), size) == Asked(targets, |targets|, inBody, size)
    {
      PickedSizes(table, targets, picks, inBody, size);
      PickCountAsked(targets, picks, inBody, size);
    }
    TargetsAsk(key, multiplier, inBody, 1);
    TargetsAsk(key, multiplier, inBody, 2);
    TargetsAsk(key, multiplier, inBody, 3);
  }

  lemma SolutionSolves(table: Table, picks: Picks, key: Signature, multiplier: int)
    requires table.Valid() && |table.effects| <= EFFECTS
    requires var targets := Targets(key, multiplier);
             IsSolution(picks, table, targets, |targets| - 1, 0, 0, InverseOf(key))
    ensures var targets := Targets(key, multiplier);
            Solves(table, PickedIds(table, targets, picks, false), PickedIds(table, targets, picks, true), key, multiplier)
  {
    hide Table.Valid, PickedIds, PickPoints, SizesOf, SkillPoints, KeySlots;
    var targets := Targets(key, multiplier);
    SolutionSizes(table, picks, key, multiplier, false);
    SolutionSizes(table, picks, key, multiplier, true);
    PickedInTable(table, targets, picks, false);
    PickedInTable(table, targets, picks, true);
    forall e | 0 <= e < |table.effects|
      ensures AsChar(SkillPoints(table.data, PickedIds(table, targets, picks, false), table.effects[e].id)
                + SkillPoints(table.data, PickedIds(table, targets, picks, true), table.effects[e].id) * multiplier)
              == GetPoints(key, e)
    {
      PickedPoints(table, targets, picks, multiplier, e);
      CancelledByte(GetPoints(key, e), PickPoints(table, targets, picks, e));
    }
  }

  lemma CancelledByte(byte: int, points: int)
    requires -128 <= byte < 128
    ensures AsChar(AsChar(-byte) + points) == 0 <==> AsChar(points) == byte
  {
  }
}
