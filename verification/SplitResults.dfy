/** What a split of a tree produces: trees of constant points, and ANDs collected by points. */
module SplitResults {
  import opened Signatures
  import opened NodePools
  import opened Scorings
  import opened TinyMaps
  import opened AndGroups

  /** A new OR whose sets all have the same points. */
  datatype TempOr = TempOr(id: int, points: int)

  // ---------- What a split produces ----------

  ghost predicate ItemOk(pool: Pool, scoring: Scoring, item: TempOr, multiplier: int, key: Signature, effect: nat, depth: nat)
    requires pool.Valid() && effect < EFFECTS
  {
    && pool.IsOr(item.id) && HasDepth(pool, item.id, depth)
    && pool.ors[item.id].key == AddPoints(key, effect, item.points)
    && forall t :: CountOr(pool, item.id, t) > 0 ==> scoring.SetPoints(t, multiplier) == item.points
  }

  ghost predicate ItemsOk(pool: Pool, scoring: Scoring, items: seq<TempOr>, multiplier: int, key: Signature, effect: nat, depth: nat)
    requires pool.Valid() && effect < EFFECTS
  {
    forall n :: 0 <= n < |items| ==> ItemOk(pool, scoring, items[n], multiplier, key, effect, depth)
  }

  /** How often the new trees list an armor set, all in all. */
  ghost function CountItems(pool: Pool, items: seq<TempOr>, t: seq<int>): nat
    requires pool.Valid() && forall n :: 0 <= n < |items| ==> pool.IsOr(items[n].id)
  {
    if items == [] then 0 else CountOr(pool, items[0].id, t) + CountItems(pool, items[1..], t)
  }

  lemma {:induction false} CountItemsAppend(pool: Pool, items: seq<TempOr>, item: TempOr, t: seq<int>)
    requires pool.Valid() && (forall n :: 0 <= n < |items| ==> pool.IsOr(items[n].id)) && pool.IsOr(item.id)
    ensures CountItems(pool, items + [item], t) == CountItems(pool, items, t) + CountOr(pool, item.id, t)
  {
    hide CountOr;
    if items == [] {
      assert (items + [item])[1..] == [];
    } else {
      assert (items + [item])[1..] == items[1..] + [item];
      CountItemsAppend(pool, items[1..], item, t);
    }
  }

  lemma {:induction false} CountItemsStable(older: Pool, pool: Pool, items: seq<TempOr>, t: seq<int>)
    requires older.Valid() && pool.Valid() && pool.Extends(older)
    requires forall n :: 0 <= n < |items| ==> older.IsOr(items[n].id)
    ensures CountItems(pool, items, t) == CountItems(older, items, t)
  {
    hide CountOr;
    if items != [] {
      CountOrStable(older, pool, items[0].id, t);
      CountItemsStable(older, pool, items[1..], t);
    }
  }

  lemma ItemsStable(older: Pool, pool: Pool, scoring: Scoring, items: seq<TempOr>, multiplier: int, key: Signature, effect: nat, depth: nat)
    requires older.Valid() && pool.Valid() && pool.Extends(older) && effect < EFFECTS
    requires ItemsOk(older, scoring, items, multiplier, key, effect, depth)
    ensures ItemsOk(pool, scoring, items, multiplier, key, effect, depth)
    ensures forall t :: CountItems(pool, items, t) == CountItems(older, items, t)
  {
    forall n | 0 <= n < |items|
      ensures ItemOk(pool, scoring, items[n], multiplier, key, effect, depth)
    {
      assert ItemOk(older, scoring, items[n], multiplier, key, effect, depth);
      DepthStable(older, pool, items[n].id, depth);
      assert pool.ors[items[n].id] == older.ors[items[n].id];
      forall t
        ensures CountOr(pool, items[n].id, t) == CountOr(older, items[n].id, t)
      {
        CountOrStable(older, pool, items[n].id, t);
      }
    }
    forall t ensures CountItems(pool, items, t) == CountItems(older, items, t) {
      CountItemsStable(older, pool, items, t);
    }
  }

  // ---------- ANDs collected by points ----------

  ghost predicate AndOk(pool: Pool, scoring: Scoring, d: int, points: int, multiplier: int, depth: nat)
    requires pool.Valid()
  {
    && pool.IsAnd(d, |pool.ors|) && depth > 0 && HasDepth(pool, pool.ands[d].right, depth - 1)
    && forall t :: CountAnd(pool, d, t) > 0 ==> scoring.SetPoints(t, multiplier) == points
  }

  ghost predicate EntriesOk(pool: Pool, scoring: Scoring, c: Container<int>, multiplier: int, depth: nat)
    requires pool.Valid()
  {
    forall n :: 0 <= n < |c| ==> EntryOk(pool, scoring, c[n], multiplier, depth)
  }

  ghost predicate EntryOk(pool: Pool, scoring: Scoring, entry: (int, seq<int>), multiplier: int, depth: nat)
    requires pool.Valid()
  {
    forall j :: 0 <= j < |entry.1| ==> AndOk(pool, scoring, entry.1[j], entry.0, multiplier, depth)
  }

  lemma AndStable(older: Pool, pool: Pool, scoring: Scoring, d: int, points: int, multiplier: int, depth: nat)
    requires older.Valid() && pool.Valid() && pool.Extends(older) && AndOk(older, scoring, d, points, multiplier, depth)
    ensures AndOk(pool, scoring, d, points, multiplier, depth)
  {
    assert pool.ands[d] == older.ands[d] && pool.ors[older.ands[d].left] == older.ors[older.ands[d].left];
    DepthStable(older, pool, older.ands[d].right, depth - 1);
    forall t
      ensures pool.IsAnd(d, |pool.ors|) && CountAnd(pool, d, t) == CountAnd(older, d, t)
    {
      CountAndStable(older, pool, d, t);
    }
  }

  lemma EntriesStable(older: Pool, pool: Pool, scoring: Scoring, c: Container<int>, multiplier: int, depth: nat)
    requires older.Valid() && pool.Valid() && pool.Extends(older) && EntriesOk(older, scoring, c, multiplier, depth)
    ensures EntriesAnds(older, c) && EntriesAnds(pool, c) && EntriesOk(pool, scoring, c, multiplier, depth)
    ensures forall t :: CountEntries(pool, c, t) == CountEntries(older, c, t)
  {
    EntriesOkAnds(older, scoring, c, multiplier, depth);
    forall n, j | 0 <= n < |c| && 0 <= j < |c[n].1|
      ensures AndOk(pool, scoring, c[n].1[j], c[n].0, multiplier, depth)
    {
      assert EntryOk(older, scoring, c[n], multiplier, depth);
      AndStable(older, pool, scoring, c[n].1[j], c[n].0, multiplier, depth);
    }
    assert forall n :: 0 <= n < |c| ==> EntryOk(pool, scoring, c[n], multiplier, depth);
    CountEntriesStable(older, pool, c, []);
    forall t ensures CountEntries(pool, c, t) == CountEntries(older, c, t) {
      CountEntriesStable(older, pool, c, t);
    }
  }

  lemma EntriesOkAnds(pool: Pool, scoring: Scoring, c: Container<int>, multiplier: int, depth: nat)
    requires pool.Valid() && EntriesOk(pool, scoring, c, multiplier, depth)
    ensures EntriesAnds(pool, c)
  {
    forall n, j | 0 <= n < |c| && 0 <= j < |c[n].1|
      ensures pool.IsAnd(c[n].1[j], |pool.ors|)
    {
      assert EntryOk(pool, scoring, c[n], multiplier, depth);
      assert AndOk(pool, scoring, c[n].1[j], c[n].0, multiplier, depth);
    }
  }

  lemma EntriesPushed(pool: Pool, scoring: Scoring, c: Container<int>, key: int, d: int, multiplier: int, depth: nat)
    requires pool.Valid() && EntriesOk(pool, scoring, c, multiplier, depth) && AndOk(pool, scoring, d, key, multiplier, depth)
    ensures EntriesAnds(pool, c) && EntriesAnds(pool, Pushed(c, key, d))
    ensures EntriesOk(pool, scoring, Pushed(c, key, d), multiplier, depth)
    ensures forall t :: CountEntries(pool, Pushed(c, key, d), t) == CountEntries(pool, c, t) + CountAnd(pool, d, t)
  {
    hide AndOk;
    EntriesOkAnds(pool, scoring, c, multiplier, depth);
    PushedEntries(c, key, d);
    var pushed := Pushed(c, key, d);
    forall n | 0 <= n < |pushed|
      ensures EntryOk(pool, scoring, pushed[n], multiplier, depth)
    {
      if n < |c| {
        assert EntryOk(pool, scoring, c[n], multiplier, depth);
      }
    }
    EntriesOkAnds(pool, scoring, pushed, multiplier, depth);
    AndOkIsAnd(pool, scoring, d, key, multiplier, depth);
    forall t ensures CountEntries(pool, pushed, t) == CountEntries(pool, c, t) + CountAnd(pool, d, t) {
      CountEntriesPushed(pool, c, key, d, t);
    }
  }

  lemma AndOkIsAnd(pool: Pool, scoring: Scoring, d: int, points: int, multiplier: int, depth: nat)
    requires pool.Valid() && AndOk(pool, scoring, d, points, multiplier, depth)
    ensures pool.IsAnd(d, |pool.ors|)
  {
  }
}
