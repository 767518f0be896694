/** ANDs collected under keys, and the armor sets that the groups and the forests list. */
module AndGroups {
  import opened NodePools
  import opened TinyMaps

  ghost predicate EntriesAnds<K>(pool: Pool, c: Container<K>) {
    forall n :: 0 <= n < |c| ==> forall j :: 0 <= j < |c[n].1| ==> pool.IsAnd(c[n].1[j], |pool.ors|)
  }

  ghost function CountEntries<K>(pool: Pool, c: Container<K>, t: seq<int>): nat
    requires pool.Valid() && EntriesAnds(pool, c)
  {
    if c == [] then 0 else CountAnds(pool, |pool.ors|, c[0].1, t) + CountEntries(pool, c[1..], t)
  }

  lemma {:induction false} CountEntriesStable<K>(older: Pool, pool: Pool, c: Container<K>, t: seq<int>)
    requires older.Valid() && pool.Valid() && pool.Extends(older) && EntriesAnds(older, c)
    ensures EntriesAnds(pool, c) && CountEntries(pool, c, t) == CountEntries(older, c, t)
  {
    hide CountAnds, Pool.Valid;
    if c != [] {
      CountAndsStable(older, pool, |older.ors|, |pool.ors|, c[0].1, t);
      CountEntriesStable(older, pool, c[1..], t);
      assert forall n :: 0 < n < |c| ==> c[n] == c[1..][n - 1];
    }
  }

  lemma {:induction false} CountEntriesPushed<K>(pool: Pool, c: Container<K>, key: K, d: int, t: seq<int>)
    requires pool.Valid() && EntriesAnds(pool, c) && pool.IsAnd(d, |pool.ors|)
    ensures EntriesAnds(pool, Pushed(c, key, d))
    ensures CountEntries(pool, Pushed(c, key, d), t) == CountEntries(pool, c, t) + CountAnd(pool, d, t)
  {
    hide CountAnds, CountAnd, Pool.Valid;
    var pushed := Pushed(c, key, d);
    CountAndsOne(pool, |pool.ors|, d, t);
    if c == [] {
      assert pushed[1..] == [];
    } else if c[0].0 == key {
      assert pushed[1..] == c[1..];
      CountAndsConcat(pool, |pool.ors|, c[0].1, [d], t);
    } else {
      assert pushed[1..] == Pushed(c[1..], key, d);
      CountEntriesPushed(pool, c[1..], key, d, t);
      assert forall n :: 0 < n < |pushed| ==> pushed[n] == pushed[1..][n - 1];
    }
  }

  lemma {:induction false} CountEntriesAppend<K>(pool: Pool, c: Container<K>, n: nat, t: seq<int>)
    requires pool.Valid() && EntriesAnds(pool, c) && n < |c|
    ensures EntriesAnds(pool, c[..n + 1]) && EntriesAnds(pool, c[..n])
    ensures CountEntries(pool, c[..n + 1], t) == CountEntries(pool, c[..n], t) + CountAnds(pool, |pool.ors|, c[n].1, t)
  {
    hide CountAnds;
    if n == 0 {
      assert c[..1][1..] == [];
    } else {
      assert c[..n + 1][1..] == c[1..][..n] && c[..n][1..] == c[1..][..n - 1];
      CountEntriesAppend(pool, c[1..], n - 1, t);
    }
  }

  // ---------- Forests ----------

  /** How often the trees list an armor set, all in all. */
  ghost function CountForest(pool: Pool, ids: seq<int>, t: seq<int>): nat
    requires pool.Valid()
  {
    if ids == [] then 0
    else (if pool.IsOr(ids[0]) then CountOr(pool, ids[0], t) else 0) + CountForest(pool, ids[1..], t)
  }

  lemma {:induction false} CountForestAppend(pool: Pool, ids: seq<int>, id: int, t: seq<int>)
    requires pool.Valid() && pool.IsOr(id)
    ensures CountForest(pool, ids + [id], t) == CountForest(pool, ids, t) + CountOr(pool, id, t)
  {
    hide CountOr;
    if ids == [] {
      assert (ids + [id])[1..] == [];
    } else {
      assert (ids + [id])[1..] == ids[1..] + [id];
      CountForestAppend(pool, ids[1..], id, t);
    }
  }

  lemma {:induction false} CountForestStable(older: Pool, pool: Pool, ids: seq<int>, t: seq<int>)
    requires older.Valid() && pool.Valid() && pool.Extends(older)
    requires forall n :: 0 <= n < |ids| ==> older.IsOr(ids[n])
    ensures CountForest(pool, ids, t) == CountForest(older, ids, t)
  {
    hide CountOr, Pool.Valid;
    if ids != [] {
      CountOrStable(older, pool, ids[0], t);
      CountForestStable(older, pool, ids[1..], t);
    }
  }

  /** The tree lists the armor set. */
  ghost predicate TreeHas(pool: Pool, id: int, t: seq<int>)
    requires pool.Valid()
  {
    pool.IsOr(id) && CountOr(pool, id, t) > 0
  }

  lemma {:induction false} CountForestMember(pool: Pool, ids: seq<int>, n: nat, t: seq<int>)
    requires pool.Valid() && n < |ids| && pool.IsOr(ids[n])
    ensures CountOr(pool, ids[n], t) <= CountForest(pool, ids, t)
  {
    hide CountOr;
    if n > 0 {
      CountForestMember(pool, ids[1..], n - 1, t);
    }
  }

  lemma {:induction false} CountForestSome(pool: Pool, ids: seq<int>, t: seq<int>) returns (n: nat)
    requires pool.Valid() && CountForest(pool, ids, t) > 0
    ensures n < |ids| && pool.IsOr(ids[n]) && CountOr(pool, ids[n], t) > 0
  {
    hide CountOr;
    if pool.IsOr(ids[0]) && CountOr(pool, ids[0], t) > 0 {
      n := 0;
    } else {
      var k := CountForestSome(pool, ids[1..], t);
      n := k + 1;
    }
  }
}
