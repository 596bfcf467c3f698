/** The sharded index: a power-of-two number of independent skip lists, each key
  * kept in the one list its hash selects.  Seen from outside it is one map.
  */
module Shard {
  import opened Common
  import opened Keys
  import opened Bits
  import SkipHeap
  import SL = SkipList

  type Value = SL.Value

  // `c` is the part of `m` routed to shard `i` of `n`.
  ghost predicate Share(c: map<Key, Value>, m: map<Key, Value>, n: nat, i: nat)
    requires IsPow2(n)
  {
    && (forall k :: k in c <==> k in m && Route(k, n) == i)
    && (forall k :: k in c ==> c[k] == m[k])
  }

  lemma SharePut(c: map<Key, Value>, m: map<Key, Value>, n: nat, i: nat, key: Key, val: Value)
    requires IsPow2(n) && Share(c, m, n, i)
    ensures Share(if Route(key, n) == i then c[key := val] else c, m[key := val], n, i)
  {
    hide Route, IsPow2;
  }

  lemma ShareDrop(c: map<Key, Value>, m: map<Key, Value>, n: nat, i: nat, key: Key)
    requires IsPow2(n) && Share(c, m, n, i)
    ensures Share(if Route(key, n) == i then c - {key} else c, m - {key}, n, i)
  {
    hide Route, IsPow2;
  }

  class ShardedIndex {
    const shards: seq<SL.SkipList>
    const mask: nat
    const height: nat               // the tallest tower, the same in every shard
    ghost var contents: map<Key, Value>

    ghost predicate Distinct() {
      forall i, j :: 0 <= i < j < |shards| ==> shards[i] != shards[j]
    }

    // Shard `i` holds exactly the entries whose keys are routed to it.
    ghost predicate Holds(i: nat, m: map<Key, Value>)
      requires i < |shards| && IsPow2(|shards|)
      reads shards
    {
      && shards[i].Valid() && shards[i].maxLevel == height
      && Share(shards[i].contents, m, |shards|, i)
    }

    ghost predicate Valid()
      reads this, shards
    {
      && IsPow2(|shards|) && mask == |shards| - 1 && Distinct()
      && (forall i :: 0 <= i < |shards| ==> Holds(i, contents))
    }

    constructor (numShards: nat, maxLevel: nat)
      requires maxLevel < SkipHeap.MAX_HEIGHT
      ensures Valid() && fresh(shards) && contents == map[] && numShards <= |shards|
      ensures |shards| == 1 || |shards| < 2 * numShards
      ensures height == maxLevel
    {
      hide SL.ValidOf;
      var k := NextPow2(if numShards < 1 then 1 else numShards);
      var v: seq<SL.SkipList> := [];
      for i := 0 to k
        invariant |v| == i && fresh(v)
        invariant forall a, b :: 0 <= a < b < |v| ==> v[a] != v[b]
        invariant forall s :: s in v ==> s.Valid() && s.contents == map[] && s.maxLevel == maxLevel
      {
        var s := new SL.SkipList(maxLevel);
        v := v + [s];
      }
      shards, mask, height, contents := v, k - 1, maxLevel, map[];
      new;
      assert forall i :: 0 <= i < |shards| ==> shards[i] in shards;
    }

    method ShardOf(key: Key) returns (i: nat)
      requires IsPow2(|shards|) && mask == |shards| - 1
      ensures i == Route(key, |shards|)
    {
      var h := Fnv1a(key);
      i := And(h, mask);
    }

    lemma InShare(i: nat, key: Key)
      requires IsPow2(|shards|) && i < |shards| && Holds(i, contents)
      ensures key in shards[i].contents <==> key in contents && Route(key, |shards|) == i
      ensures key in shards[i].contents ==> shards[i].contents[key] == contents[key]
    {
    }

    method Insert(key: Key, val: Value, topLevel: nat) returns (created: bool)
      requires Valid() && topLevel <= height
      modifies this`contents, shards[Route(key, |shards|)]
      ensures Valid() && contents == old(contents)[key := val] && created == (key !in old(contents))
    {
      hide SL.ValidOf, Share, Route, IsPow2;
      var i := ShardOf(key);
      assert Holds(i, contents);
      InShare(i, key);
      var s := shards[i];
      created := s.Insert(key, val, topLevel);
      ghost var m := contents[key := val];
      forall j | 0 <= j < |shards|
        ensures Holds(j, m)
      {
        assert old(Holds(j, contents));
        SharePut(old(shards[j].contents), old(contents), |shards|, j, key, val);
      }
      contents := m;
    }

    method Remove(key: Key) returns (removed: bool)
      requires Valid()
      modifies this`contents, shards[Route(key, |shards|)]
      ensures Valid() && contents == old(contents) - {key} && removed == (key in old(contents))
    {
      hide SL.ValidOf, SL.Gone, SL.Holds, Share, Route, IsPow2;
      var i := ShardOf(key);
      assert Holds(i, contents);
      InShare(i, key);
      removed := shards[i].Remove(key);
      ghost var m := contents - {key};
      forall j | 0 <= j < |shards|
        ensures Holds(j, m)
      {
        assert old(Holds(j, contents));
        ShareDrop(old(shards[j].contents), old(contents), |shards|, j, key);
      }
      contents := m;
    }

    method Get(key: Key) returns (r: Option<Value>)
      requires Valid()
      ensures r == if key in contents then Some(contents[key]) else None
    {
      hide SL.ValidOf, Route, IsPow2;
      var i := ShardOf(key);
      assert Holds(i, contents);
      var s := shards[i];
      SL.ValidMeans(s.heap, s.levels, s.maxLevel, s.cells, s.contents, s.retired, s.brk);
      r := s.Get(key);
    }

    // Every entry of the index is in the one shard its hash selects, modulo the
    // number of shards, with its value; no shard holds anything else.
    lemma OneHome(key: Key)
      requires Valid()
      ensures key in contents <==> exists i :: 0 <= i < |shards| && key in shards[i].contents
      ensures forall i :: 0 <= i < |shards| && key in shards[i].contents ==>
                i == Fnv(key) % |shards| && shards[i].contents[key] == contents[key]
    {
      hide SL.ValidOf, Share, Route, IsPow2, Fnv;
      RouteIsMod(key, |shards|);
      forall i | 0 <= i < |shards|
        ensures key in shards[i].contents <==> key in contents && Route(key, |shards|) == i
        ensures key in shards[i].contents ==> shards[i].contents[key] == contents[key]
      {
        assert Holds(i, contents);
        InShare(i, key);
      }
      assert key in contents ==> key in shards[Route(key, |shards|)].contents;
    }

    // The keys routed to the first `j` shards.
    ghost function Below(j: nat): set<Key>
      requires IsPow2(|shards|)
      reads this
    {
      set k | k in contents && Route(k, |shards|) < j
    }

    lemma BelowStep(j: nat)
      requires Valid() && j < |shards|
      ensures |Below(j + 1)| == |Below(j)| + |shards[j].contents|
    {
      hide SL.ValidOf, Route, IsPow2;
      assert Holds(j, contents);
      var here := shards[j].contents.Keys;
      assert Below(j + 1) == Below(j) + here && Below(j) !! here;
    }

    // The sum of the shards' lengths is the number of entries.
    method Len() returns (total: nat)
      requires Valid()
      ensures total == |contents|
    {
      hide SL.ValidOf, Route, IsPow2;
      total := 0;
      assert Below(0) == {};
      for i := 0 to |shards|
        invariant total == |Below(i)|
      {
        assert Holds(i, contents);
        var s := shards[i];
        SL.ValidMeans(s.heap, s.levels, s.maxLevel, s.cells, s.contents, s.retired, s.brk);
        BelowStep(i);
        total := total + s.len;
      }
      assert Below(|shards|) == contents.Keys;
    }
  }
}
