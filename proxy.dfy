/**
 * A proxy's pool of lambdas and its key-to-lambdas map, and the per-record
 * access (`perform`) that places a new key or refreshes a known one while
 * counting into the reuse timeline and the memory array.
 */
module Proxies {
  import opened Uint64
  import opened SimTypes
  import opened Tally

  /**
   * A lambda after a hit on `rec.key`: the key's object gets the record's
   * shard size and one more access; no other object and not the memory
   * total change.
   */
  function Touch(l: Lambda, rec: Record, numDataShards: nat): (r: Lambda)
    requires numDataShards > 0 && rec.key in l.kvs
    ensures r.memUsed == l.memUsed
    ensures r.kvs.Keys == l.kvs.Keys
    ensures r.kvs[rec.key].key == l.kvs[rec.key].key && r.kvs[rec.key].sz == ShardSize(rec, numDataShards)
    ensures l.kvs[rec.key].freq < LIMIT - 1 ==> r.kvs[rec.key].freq == l.kvs[rec.key].freq + 1
    ensures l.kvs[rec.key].freq == LIMIT - 1 ==> r.kvs[rec.key].freq == 0
    ensures forall key :: key in l.kvs && key != rec.key ==> r.kvs[key] == l.kvs[key]
  {
    var obj := l.kvs[rec.key];
    l.(kvs := l.kvs[rec.key := obj.(sz := ShardSize(rec, numDataShards), freq := Inc(obj.freq))])
  }

  /**
   * A lambda after it receives a new shard of `rec.key`: a fresh object of
   * the key with the shard size and no hits, and the shard size added to
   * the memory total; no other object changes.
   */
  function Place(l: Lambda, rec: Record, numDataShards: nat): (r: Lambda)
    requires numDataShards > 0
    ensures r.kvs.Keys == l.kvs.Keys + {rec.key}
    ensures r.kvs[rec.key].key == rec.key && r.kvs[rec.key].freq == 0
    ensures r.kvs[rec.key].sz == ShardSize(rec, numDataShards)
    ensures l.memUsed + r.kvs[rec.key].sz < LIMIT ==> r.memUsed == l.memUsed + r.kvs[rec.key].sz
    ensures LIMIT <= l.memUsed + r.kvs[rec.key].sz ==> r.memUsed == l.memUsed + r.kvs[rec.key].sz - LIMIT
    ensures forall key :: key in l.kvs && key != rec.key ==> r.kvs[key] == l.kvs[key]
  {
    var sz := ShardSize(rec, numDataShards);
    Lambda(l.kvs[rec.key := Object(rec.key, sz, 0)], Add(l.memUsed, sz))
  }

  /** The lambda at `i` after an access whose shards are `shards`. */
  function Accessed(l: Lambda, i: nat, rec: Record, numDataShards: nat, hit: bool, shards: seq<nat>): Lambda
    requires numDataShards > 0 && (hit && i in shards ==> rec.key in l.kvs)
  {
    if i !in shards then l
    else if hit then Touch(l, rec, numDataShards)
    else Place(l, rec, numDataShards)
  }

  /**
   * Every known key lists `numChunks` distinct lambdas of the pool, each of
   * which holds an object for it; and every object a lambda holds is filed
   * under its own key, by a key whose list names that lambda.
   */
  ghost predicate Consistent(placement: map<string, seq<nat>>, lambdas: seq<Lambda>, numChunks: nat)
  {
    && (forall key :: key in placement ==> IsPlacement(placement[key], |lambdas|, numChunks))
    && (forall key, idx :: key in placement && idx in placement[key] ==>
          idx < |lambdas| && key in lambdas[idx].kvs)
    && (forall i, key :: 0 <= i < |lambdas| && key in lambdas[i].kvs ==>
          key in placement && i in placement[key] && lambdas[i].kvs[key].key == key)
  }

  /** A pool of empty lambdas without keys is consistent. */
  lemma EmptyPoolConsistent(lambdas: seq<Lambda>, numChunks: nat)
    requires forall i :: 0 <= i < |lambdas| ==> lambdas[i] == EmptyLambda
    ensures Consistent(map[], lambdas, numChunks)
  {
  }

  /**
   * How an access files `rec.key` in a proxy's map: it is a hit exactly
   * when the key is already there, a hit leaves the map alone, a miss adds
   * the key with its new shards, and afterwards the key lists `shards`.
   */
  predicate Filed(placement: map<string, seq<nat>>, placement': map<string, seq<nat>>, rec: Record,
                  hit: bool, shards: seq<nat>)
  {
    && (hit <==> rec.key in placement)
    && (hit ==> placement' == placement)
    && (!hit ==> placement' == placement[rec.key := shards])
    && rec.key in placement' && placement'[rec.key] == shards
  }

  /** Every lambda of `pool'` is the one of `pool` after the access, as `Accessed` describes. */
  predicate PoolAccessed(pool: seq<Lambda>, pool': seq<Lambda>, rec: Record, numDataShards: nat,
                         hit: bool, shards: seq<nat>)
    requires numDataShards > 0
  {
    && |pool'| == |pool|
    && (forall i :: 0 <= i < |pool| ==>
          && (hit && i in shards ==> rec.key in pool[i].kvs)
          && pool'[i] == Accessed(pool[i], i, rec, numDataShards, hit, shards))
  }

  /** A hit leaves the map and the pool consistent. */
  lemma HitKeepsConsistent(placement: map<string, seq<nat>>, lambdas: seq<Lambda>, lambdas': seq<Lambda>,
                           rec: Record, numDataShards: nat, numChunks: nat)
    requires Consistent(placement, lambdas, numChunks)
    requires numDataShards > 0 && rec.key in placement
    requires PoolAccessed(lambdas, lambdas', rec, numDataShards, true, placement[rec.key])
    ensures Consistent(placement, lambdas', numChunks)
  {
  }

  /** A miss that files a new key under a placement keeps the map and the pool consistent. */
  lemma MissKeepsConsistent(placement: map<string, seq<nat>>, lambdas: seq<Lambda>, lambdas': seq<Lambda>,
                            rec: Record, numDataShards: nat, numChunks: nat, index: seq<nat>)
    requires Consistent(placement, lambdas, numChunks)
    requires numDataShards > 0 && rec.key !in placement
    requires IsPlacement(index, |lambdas|, numChunks)
    requires PoolAccessed(lambdas, lambdas', rec, numDataShards, false, index)
    ensures Consistent(placement[rec.key := index], lambdas', numChunks)
  {
  }

  class Proxy {
    /** The proxy's index (the source keeps it as its decimal string). */
    const id: nat
    const pool: array<Lambda>
    /** For each key this proxy has seen, the lambdas holding its shards. */
    var placement: map<string, seq<nat>>

    /** The proxy's map and pool agree, as `Consistent` states. */
    ghost predicate Valid(numChunks: nat)
      reads this, pool
    {
      Consistent(placement, pool[..], numChunks)
    }

    /** Proxy `id` with `numLambdas` empty lambdas and no keys. */
    constructor (id: nat, numLambdas: nat)
      ensures this.id == id && fresh(pool) && pool.Length == numLambdas
      ensures forall i :: 0 <= i < numLambdas ==> pool[i] == EmptyLambda
      ensures placement == map[]
    {
      var lambdas := new Lambda[numLambdas];
      for j := 0 to numLambdas
        invariant forall i :: 0 <= i < j ==> lambdas[i] == EmptyLambda
      {
        lambdas[j] := EmptyLambda;
      }
      this.id := id;
      pool := lambdas;
      placement := map[];
    }
  }

  /**
   * One access of `rec` to proxy `p`. On a hit (the key is in `p.placement`)
   * each listed lambda's object gets the record's shard size and one more
   * access, and the listed lambdas' timeline cells for the record's hour
   * grow by one. On a miss the first shard-count entries of `perm` become
   * the key's lambdas; each gets a new object of the shard size, its memory
   * total grows by that size, its timeline cell grows by one and, up to
   * hour 99, its memory cell grows by the record size in MiB.
   */
  method Perform(p: Proxy, rec: Record, reuseTimeline: array2<int>, memArr: array<int>, opts: Options, perm: seq<nat>)
    returns (ghost hit: bool, ghost shards: seq<nat>)
    requires Runnable(opts)
    requires p.pool.Length == opts.numLambdasPerProxy && p.Valid(ShardCount(opts))
    requires p.id < opts.numProxies
    requires reuseTimeline.Length0 == opts.numProxies * opts.numLambdasPerProxy == memArr.Length
    requires rec.timestampHr < reuseTimeline.Length1
    requires IsPermutation(perm, opts.numLambdasPerProxy)
    modifies p, p.pool, reuseTimeline, memArr
    ensures p.Valid(ShardCount(opts))
    ensures Filed(old(p.placement), p.placement, rec, hit, shards)
    ensures !hit ==> shards == Random(opts.numLambdasPerProxy, ShardCount(opts), perm)
    ensures PoolAccessed(old(p.pool[..]), p.pool[..], rec, opts.numDataShards, hit, shards)
    ensures forall r, c :: 0 <= r < reuseTimeline.Length0 && 0 <= c < reuseTimeline.Length1 ==>
      reuseTimeline[r, c] == old(reuseTimeline[r, c])
        + (if c == rec.timestampHr && r in Lanes(p.id, opts.numLambdasPerProxy, shards) then 1 else 0)
    ensures Ticked(old(Grid(reuseTimeline)), Grid(reuseTimeline), rec.timestampHr,
                   Lanes(p.id, opts.numLambdasPerProxy, shards))
    ensures Bumped(old(RowSums(Grid(reuseTimeline))), RowSums(Grid(reuseTimeline)),
                   Lanes(p.id, opts.numLambdasPerProxy, shards), 1)
    ensures Bumped(old(memArr[..]), memArr[..], Lanes(p.id, opts.numLambdasPerProxy, shards),
                   if !hit && rec.timestampHr <= LAST_MEMORY_HOUR then MemoryMiB(rec.sz) else 0)
    ensures Total(Grid(reuseTimeline)) == old(Total(Grid(reuseTimeline))) + ShardCount(opts)
    ensures Sum(memArr[..]) == old(Sum(memArr[..]))
      + (if !hit && rec.timestampHr <= LAST_MEMORY_HOUR then ShardCount(opts) * MemoryMiB(rec.sz) else 0)
  {
    ghost var pool0 := p.pool[..];
    ghost var timeline0 := Grid(reuseTimeline);
    ghost var mem0 := memArr[..];
    var L := opts.numLambdasPerProxy;
    if rec.key in p.placement {
      var val := p.placement[rec.key];
      hit, shards := true, val;
      RefreshShards(p, rec, val, reuseTimeline, memArr, opts);
      HitKeepsConsistent(p.placement, pool0, p.pool[..], rec, opts.numDataShards, ShardCount(opts));
    } else {
      var index := Random(L, ShardCount(opts), perm);
      hit, shards := false, index;
      p.placement := p.placement[rec.key := index];
      PlaceShards(p, rec, index, reuseTimeline, memArr, opts);
      MissKeepsConsistent(old(p.placement), pool0, p.pool[..], rec, opts.numDataShards, ShardCount(opts), index);
    }
    var lanes := Lanes(p.id, L, shards);
    LanesSize(p.id, L, shards);
    LanesInRange(p.id, opts.numProxies, L, shards);
    GridTicked(timeline0, reuseTimeline, rec.timestampHr as nat, lanes);
    TotalBumped(timeline0, Grid(reuseTimeline), rec.timestampHr as nat, lanes);
    SumBumped(mem0, memArr[..], lanes,
              if !hit && rec.timestampHr <= LAST_MEMORY_HOUR then MemoryMiB(rec.sz) else 0);
  }

  /**
   * One more shard of an access: lambda `shards[k]`, not yet touched, gets
   * the access, and the pool is then accessed for the first `k + 1` shards.
   */
  lemma PoolAccessedSnoc(pool0: seq<Lambda>, pool: seq<Lambda>, rec: Record, numDataShards: nat,
                         hit: bool, shards: seq<nat>, k: nat)
    requires numDataShards > 0
    requires k < |shards| && shards[k] < |pool0| && shards[k] !in shards[..k]
    requires hit ==> rec.key in pool0[shards[k]].kvs
    requires PoolAccessed(pool0, pool, rec, numDataShards, hit, shards[..k])
    ensures PoolAccessed(pool0, pool[shards[k] := Accessed(pool0[shards[k]], shards[k], rec, numDataShards, hit, [shards[k]])],
                         rec, numDataShards, hit, shards[..k + 1])
  {
    assert shards[..k + 1] == shards[..k] + [shards[k]];
  }

  /** The loop of a hit: refresh the key's object in each lambda of `val` and count the access. */
  method RefreshShards(p: Proxy, rec: Record, val: seq<nat>, reuseTimeline: array2<int>, memArr: array<int>, opts: Options)
    requires Runnable(opts)
    requires p.pool.Length == opts.numLambdasPerProxy && p.id < opts.numProxies
    requires IsPlacement(val, opts.numLambdasPerProxy, |val|)
    requires forall idx :: idx in val ==> rec.key in p.pool[idx].kvs
    requires reuseTimeline.Length0 == opts.numProxies * opts.numLambdasPerProxy
    requires rec.timestampHr < reuseTimeline.Length1
    modifies p.pool, reuseTimeline
    ensures PoolAccessed(old(p.pool[..]), p.pool[..], rec, opts.numDataShards, true, val)
    ensures forall r, c :: 0 <= r < reuseTimeline.Length0 && 0 <= c < reuseTimeline.Length1 ==>
      reuseTimeline[r, c] == old(reuseTimeline[r, c])
        + (if c == rec.timestampHr && r in Lanes(p.id, opts.numLambdasPerProxy, val) then 1 else 0)
  {
    var L := opts.numLambdasPerProxy;
    var d := opts.numDataShards;
    var hr := rec.timestampHr;
    ghost var pool0 := p.pool[..];
    assert Lanes(p.id, L, val[..0]) == {};
    for k := 0 to |val|
      invariant PoolAccessed(pool0, p.pool[..], rec, d, true, val[..k])
      invariant forall r, c :: 0 <= r < reuseTimeline.Length0 && 0 <= c < reuseTimeline.Length1 ==>
        reuseTimeline[r, c] == old(reuseTimeline[r, c])
          + (if c == hr && r in Lanes(p.id, L, val[..k]) then 1 else 0)
    {
      var idx := val[k];
      assert idx !in val[..k];
      ghost var before := p.pool[..];
      var obj := p.pool[idx].kvs[rec.key];
      obj := obj.(sz := ShardSize(rec, d), freq := Inc(obj.freq));
      p.pool[idx] := p.pool[idx].(kvs := p.pool[idx].kvs[rec.key := obj]);
      assert p.pool[..] == before[idx := Accessed(pool0[idx], idx, rec, d, true, [idx])];
      PoolAccessedSnoc(pool0, before, rec, d, true, val, k);
      var lambdaIdx := FlatIndex(p.id, L, idx);
      FlatIndexInRange(p.id, opts.numProxies, L, idx);
      reuseTimeline[lambdaIdx, hr] := reuseTimeline[lambdaIdx, hr] + 1;
      assert val[..k + 1] == val[..k] + [idx];
      LanesSnoc(p.id, L, val[..k], idx);
    }
    assert val[..|val|] == val;
  }

  /**
   * The loop of a miss: give each lambda of `index` a new object of the key,
   * charge it the shard size, and count the access and, up to hour 99, the
   * record's size in MiB.
   */
  method PlaceShards(p: Proxy, rec: Record, index: seq<nat>, reuseTimeline: array2<int>, memArr: array<int>, opts: Options)
    requires Runnable(opts)
    requires p.pool.Length == opts.numLambdasPerProxy && p.id < opts.numProxies
    requires IsPlacement(index, opts.numLambdasPerProxy, |index|)
    requires reuseTimeline.Length0 == opts.numProxies * opts.numLambdasPerProxy == memArr.Length
    requires rec.timestampHr < reuseTimeline.Length1
    modifies p.pool, reuseTimeline, memArr
    ensures PoolAccessed(old(p.pool[..]), p.pool[..], rec, opts.numDataShards, false, index)
    ensures forall r, c :: 0 <= r < reuseTimeline.Length0 && 0 <= c < reuseTimeline.Length1 ==>
      reuseTimeline[r, c] == old(reuseTimeline[r, c])
        + (if c == rec.timestampHr && r in Lanes(p.id, opts.numLambdasPerProxy, index) then 1 else 0)
    ensures Bumped(old(memArr[..]), memArr[..], Lanes(p.id, opts.numLambdasPerProxy, index),
                   if rec.timestampHr <= LAST_MEMORY_HOUR then MemoryMiB(rec.sz) else 0)
  {
    var L := opts.numLambdasPerProxy;
    var d := opts.numDataShards;
    var hr := rec.timestampHr;
    ghost var pool0 := p.pool[..];
    ghost var mem0 := memArr[..];
    ghost var amount := if hr <= LAST_MEMORY_HOUR then MemoryMiB(rec.sz) else 0;
    assert Lanes(p.id, L, index[..0]) == {};
    for k := 0 to |index|
      invariant PoolAccessed(pool0, p.pool[..], rec, d, false, index[..k])
      invariant forall r, c :: 0 <= r < reuseTimeline.Length0 && 0 <= c < reuseTimeline.Length1 ==>
        reuseTimeline[r, c] == old(reuseTimeline[r, c])
          + (if c == hr && r in Lanes(p.id, L, index[..k]) then 1 else 0)
      invariant Bumped(mem0, memArr[..], Lanes(p.id, L, index[..k]), amount)
    {
      var idx := index[k];
      assert idx !in index[..k];
      ghost var before := p.pool[..];
      ghost var memBefore := memArr[..];
      PlaceShard(p, rec, idx, reuseTimeline, memArr, opts);
      PoolAccessedSnoc(pool0, before, rec, d, false, index, k);
      LanesMember(p.id, p.id, L, idx, index[..k]);
      BumpedSnoc(mem0, memBefore, Lanes(p.id, L, index[..k]), FlatIndex(p.id, L, idx), amount);
      assert index[..k + 1] == index[..k] + [idx];
      LanesSnoc(p.id, L, index[..k], idx);
    }
    assert index[..|index|] == index;
  }

  /**
   * One shard of a miss: lambda `idx` gets a new object of the key and is
   * charged its shard size, its timeline cell for the record's hour grows
   * by one and, up to hour 99, its memory cell by the record size in MiB.
   */
  method PlaceShard(p: Proxy, rec: Record, idx: nat, reuseTimeline: array2<int>, memArr: array<int>, opts: Options)
    requires Runnable(opts)
    requires p.pool.Length == opts.numLambdasPerProxy && p.id < opts.numProxies && idx < p.pool.Length
    requires reuseTimeline.Length0 == opts.numProxies * opts.numLambdasPerProxy == memArr.Length
    requires rec.timestampHr < reuseTimeline.Length1
    modifies p.pool, reuseTimeline, memArr
    ensures p.pool[..] == old(p.pool[..])[idx := Place(old(p.pool[idx]), rec, opts.numDataShards)]
    ensures var lane := FlatIndex(p.id, opts.numLambdasPerProxy, idx);
      && lane < memArr.Length
      && memArr[..] == old(memArr[..])[lane := old(memArr[lane])
           + (if rec.timestampHr <= LAST_MEMORY_HOUR then MemoryMiB(rec.sz) else 0)]
      && forall r, c :: 0 <= r < reuseTimeline.Length0 && 0 <= c < reuseTimeline.Length1 ==>
           reuseTimeline[r, c] == old(reuseTimeline[r, c]) + (if r == lane && c == rec.timestampHr then 1 else 0)
  {
    var d := opts.numDataShards;
    var hr := rec.timestampHr;
    p.pool[idx] := Lambda(p.pool[idx].kvs[rec.key := Object(rec.key, ShardSize(rec, d), 0)],
                          Add(p.pool[idx].memUsed, ShardSize(rec, d)));
    var lambdaIdx := FlatIndex(p.id, opts.numLambdasPerProxy, idx);
    FlatIndexInRange(p.id, opts.numProxies, opts.numLambdasPerProxy, idx);
    if hr <= LAST_MEMORY_HOUR {
      memArr[lambdaIdx] := memArr[lambdaIdx] + MemoryMiB(rec.sz);
    }
    reuseTimeline[lambdaIdx, hr] := reuseTimeline[lambdaIdx, hr] + 1;
  }

  /**
   * `nProxies` proxies, proxy `i` with index `i`, a pool of
   * `nLambdasPerProxy` empty lambdas and no keys; no two share a pool.
   */
  method InitProxies(nProxies: nat, nLambdasPerProxy: nat) returns (proxies: seq<Proxy>)
    ensures |proxies| == nProxies
    ensures forall i :: 0 <= i < nProxies ==>
      && fresh(proxies[i]) && fresh(proxies[i].pool)
      && proxies[i].id == i
      && proxies[i].pool.Length == nLambdasPerProxy
      && proxies[i].placement == map[]
      && (forall j :: 0 <= j < nLambdasPerProxy ==> proxies[i].pool[j] == EmptyLambda)
    ensures forall i, j :: 0 <= i < j < nProxies ==> proxies[i].pool != proxies[j].pool
  {
    proxies := [];
    for i := 0 to nProxies
      invariant |proxies| == i
      invariant forall k :: 0 <= k < i ==>
        && fresh(proxies[k]) && fresh(proxies[k].pool)
        && proxies[k].id == k
        && proxies[k].pool.Length == nLambdasPerProxy
        && proxies[k].placement == map[]
        && (forall j :: 0 <= j < nLambdasPerProxy ==> proxies[k].pool[j] == EmptyLambda)
      invariant forall k, j :: 0 <= k < j < i ==> proxies[k].pool != proxies[j].pool
    {
      var p := new Proxy(i, nLambdasPerProxy);
      proxies := proxies + [p];
    }
  }

  /** A `numLambdas` by `numHours` timeline of zeros. */
  method InitTimeline(numLambdas: nat, numHours: nat) returns (tl: array2<int>)
    ensures fresh(tl)
    ensures tl.Length0 == numLambdas && tl.Length1 == numHours
    ensures forall r, c :: 0 <= r < numLambdas && 0 <= c < numHours ==> tl[r, c] == 0
  {
    tl := new int[numLambdas, numHours];
    for i := 0 to numLambdas
      invariant forall r, c :: 0 <= r < i && 0 <= c < numHours ==> tl[r, c] == 0
    {
      for j := 0 to numHours
        invariant forall r, c :: 0 <= r < i && 0 <= c < numHours ==> tl[r, c] == 0
        invariant forall c :: 0 <= c < j ==> tl[i, c] == 0
      {
        tl[i, j] := 0;
      }
    }
  }
}
