/** Small multimaps from points to ids, in insertion order. */
module TinyMaps {

  type Container<K> = seq<(K, seq<int>)>

  /** Append `value` to the list of `key`, or start a new list at the end. */
  function Pushed<K(==)>(c: Container<K>, key: K, value: int): Container<K> {
    if c == [] then [(key, [value])]
    else if c[0].0 == key then [(key, c[0].1 + [value])] + c[1..]
    else [c[0]] + Pushed(c[1..], key, value)
  }

  ghost predicate DistinctKeys<K>(c: Container<K>) {
    forall i, j :: 0 <= i < j < |c| ==> c[i].0 != c[j].0
  }

  /** How often `value` is listed, under whatever key. */
  ghost function Total<K>(c: Container<K>, value: int): nat {
    if c == [] then 0 else multiset(c[0].1)[value] + Total(c[1..], value)
  }

  /** A push changes one list, or adds one. */
  lemma {:induction false} PushedEntries<K>(c: Container<K>, key: K, value: int)
    ensures (exists n :: 0 <= n < |c| && c[n].0 == key && Pushed(c, key, value) == c[n := (key, c[n].1 + [value])])
         || ((forall n :: 0 <= n < |c| ==> c[n].0 != key) && Pushed(c, key, value) == c + [(key, [value])])
  {
    if c != [] && c[0].0 == key {
      assert Pushed(c, key, value) == c[0 := (key, c[0].1 + [value])];
    } else if c != [] {
      var rest, pushed := c[1..], Pushed(c[1..], key, value);
      PushedEntries(rest, key, value);
      if n :| 0 <= n < |rest| && rest[n].0 == key && pushed == rest[n := (key, rest[n].1 + [value])] {
        assert [c[0]] + pushed == c[n + 1 := (key, c[n + 1].1 + [value])];
      } else {
        assert forall n :: 0 < n < |c| ==> c[n] == rest[n - 1];
        assert [c[0]] + pushed == c + [(key, [value])];
      }
    }
  }

  lemma {:induction false} PushedTotal<K>(c: Container<K>, key: K, value: int, x: int)
    ensures Total(Pushed(c, key, value), x) == Total(c, x) + if x == value then 1 else 0
  {
    if c == [] {
      assert Pushed(c, key, value)[1..] == [];
    } else if c[0].0 == key {
      assert Pushed(c, key, value)[1..] == c[1..];
    } else {
      assert Pushed(c, key, value)[1..] == Pushed(c[1..], key, value);
      PushedTotal(c[1..], key, value, x);
    }
  }

  lemma {:induction false} TotalAppend<K>(c: Container<K>, n: nat, x: int)
    requires n < |c|
    ensures Total(c[..n + 1], x) == Total(c[..n], x) + multiset(c[n].1)[x]
  {
    if n == 0 {
      assert c[..1][1..] == [];
    } else {
      assert c[..n + 1][1..] == c[1..][..n] && c[..n][1..] == c[1..][..n - 1];
      TotalAppend(c[1..], n - 1, x);
    }
  }

  /** Keys stay distinct and lists stay non-empty. */
  lemma PushedDistinct<K>(c: Container<K>, key: K, value: int)
    requires DistinctKeys(c) && forall n :: 0 <= n < |c| ==> c[n].1 != []
    ensures DistinctKeys(Pushed(c, key, value))
    ensures forall n :: 0 <= n < |Pushed(c, key, value)| ==> Pushed(c, key, value)[n].1 != []
  {
    PushedEntries(c, key, value);
  }

  const NONE := 255
  const OFFSET := 25
  const KEYS := 64

  lemma PushedStep<K>(c: Container<K>, n: nat, key: K, value: int)
    requires n < |c|
    ensures c[n].0 == key ==> c[..n] + Pushed(c[n..], key, value) == c[n := (key, c[n].1 + [value])]
    ensures c[n].0 != key ==> c[..n] + Pushed(c[n..], key, value) == c[..n + 1] + Pushed(c[n + 1..], key, value)
  {
    assert c[n..][0] == c[n] && c[n..][1..] == c[n + 1..];
  }

  lemma PushedEnd<K>(key: K, value: int)
    ensures Pushed([], key, value) == [(key, [value])]
  {
  }

  class VectorBasedListMap {
    var container: Container<int>

    constructor ()
      ensures container == []
    {
      container := [];
    }

    method Push(key: int, value: int)
      modifies this
      ensures container == Pushed(old(container), key, value)
    {
      hide Pushed;
      ghost var c := container;
      var n := 0;
      assert c[..0] + Pushed(c[0..], key, value) == Pushed(c, key, value) by { assert c[0..] == c; }
      while n < |container|
        invariant 0 <= n <= |c| && container == c
        invariant Pushed(c, key, value) == c[..n] + Pushed(c[n..], key, value)
      {
        PushedStep(c, n, key, value);
        if container[n].0 == key {
          container := container[n := (key, container[n].1 + [value])];
          return;
        }
        n := n + 1;
      }
      PushedEnd<int>(key, value);
      assert c[|c|..] == [];
      container := container + [(key, [value])];
    }
  }

  /** The index map finds the list of every key, and only of keys that have one. */
  ghost predicate Indexed(container: Container<int>, indexMap: seq<int>) {
    && |indexMap| == KEYS && DistinctKeys(container)
    && (forall n :: 0 <= n < |container| ==> container[n].1 != [])
    && (forall k :: 0 <= k < KEYS && indexMap[k] != NONE ==>
          0 <= indexMap[k] < |container| && container[indexMap[k]].0 == k - OFFSET)
    && (forall n :: 0 <= n < |container| ==>
          0 <= container[n].0 + OFFSET < KEYS && indexMap[container[n].0 + OFFSET] == n)
  }

  class CompositeListMap {
    var container: Container<int>
    var indexMap: seq<int>

    ghost predicate Valid()
      reads this
    {
      Indexed(container, indexMap)
    }

    constructor ()
      ensures Valid() && container == []
    {
      container := [];
      indexMap := seq(KEYS, _ => NONE);
    }

    /** Does what a scan of the lists would do. The index is stored in a byte. */
    method Push(key: int, value: int)
      requires Valid() && 0 <= key + OFFSET < KEYS
      modifies this
      ensures Valid() && container == Pushed(old(container), key, value)
    {
      hide Indexed, Pushed, DistinctKeys;
      IndexedSize(container, indexMap);
      var internalKey := key + OFFSET;
      if NONE != indexMap[internalKey] {
        IndexedHit(container, indexMap, key, value);
        var n := indexMap[internalKey];
        container := container[n := (key, container[n].1 + [value])];
        return;
      }
      IndexedMiss(container, indexMap, key, value);
      indexMap := indexMap[internalKey := |container| % 256];
      container := container + [(key, [value])];
    }
  }

  lemma IndexedSize(c: Container<int>, indexMap: seq<int>)
    requires Indexed(c, indexMap)
    ensures |indexMap| == KEYS
  {
  }

  lemma IndexedHit(c: Container<int>, indexMap: seq<int>, key: int, value: int)
    requires Indexed(c, indexMap) && 0 <= key + OFFSET < KEYS && indexMap[key + OFFSET] != NONE
    ensures 0 <= indexMap[key + OFFSET] < |c|
    ensures var n := indexMap[key + OFFSET];
            c[n := (key, c[n].1 + [value])] == Pushed(c, key, value) && Indexed(Pushed(c, key, value), indexMap)
  {
    hide Pushed;
    PushedEntries(c, key, value);
    PushedDistinct(c, key, value);
  }

  /** A byte is wide enough: there are never more lists than keys. */
  lemma IndexedMiss(c: Container<int>, indexMap: seq<int>, key: int, value: int)
    requires Indexed(c, indexMap) && 0 <= key + OFFSET < KEYS && indexMap[key + OFFSET] == NONE
    ensures c + [(key, [value])] == Pushed(c, key, value)
    ensures Indexed(Pushed(c, key, value), indexMap[key + OFFSET := |c| % 256])
  {
    hide Pushed;
    KeysAreFew(c, KEYS);
    PushedEntries(c, key, value);
    assert forall n :: 0 <= n < |c| ==> c[n].0 != key;
    IndexedAppended(c, indexMap, key, [value]);
  }

  lemma IndexedAppended(c: Container<int>, indexMap: seq<int>, key: int, values: seq<int>)
    requires Indexed(c, indexMap) && 0 <= key + OFFSET < KEYS && indexMap[key + OFFSET] == NONE
    requires |c| < NONE && values != [] && forall n :: 0 <= n < |c| ==> c[n].0 != key
    ensures Indexed(c + [(key, values)], indexMap[key + OFFSET := |c|])
  {
  }

  lemma {:induction false} KeysAreFew(c: Container<int>, bound: nat)
    requires DistinctKeys(c) && forall n :: 0 <= n < |c| ==> 0 <= c[n].0 + OFFSET < bound
    ensures |c| <= bound
  {
    if c != [] {
      assert 0 <= c[0].0 + OFFSET < bound;
      if n :| 0 <= n < |c| && c[n].0 + OFFSET == bound - 1 {
        KeysAreFew(c[..n] + c[n + 1..], bound - 1);
      } else {
        KeysAreFew(c, bound - 1);
      }
    }
  }
}
