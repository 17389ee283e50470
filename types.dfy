/**
 * The records, objects and lambdas of the simulator, its options, the
 * shard-placement choice and the flat addressing of lambdas shared by the
 * two accumulators.
 */
module SimTypes {
  import opened Uint64

  /** One shard copy of a key, as a lambda stores it. */
  datatype Object = Object(key: string, sz: u64, freq: u64)

  /** A cache worker: its key-to-object map and its running memory total. */
  datatype Lambda = Lambda(kvs: map<string, Object>, memUsed: u64)

  /** A lambda as initProxies creates it. */
  const EmptyLambda: Lambda := Lambda(map[], 0)

  /** One access of the trace. */
  datatype Record = Record(key: string, sz: u64, timestamp: string, timestampHr: u64, timestamp15min: u64)

  /** The numeric options of a run (the file paths are I/O and left out). */
  datatype Options = Options(
    numProxies: nat,
    numLambdasPerProxy: nat,
    numHours: nat,
    numDataShards: nat,
    numParityShards: nat)

  /** The defaults of the command line. */
  const DefaultOptions: Options := Options(2, 32, 1800, 10, 2)

  /** Memory is only attributed for records up to this hour bucket. */
  const LAST_MEMORY_HOUR: nat := 99

  const BYTES_PER_MIB: nat := 1048576

  /** How many lambdas receive a shard of each key. */
  function ShardCount(opts: Options): nat
  {
    opts.numDataShards + opts.numParityShards
  }

  /**
   * The options the model replays under. The slice taken of the random
   * permutation needs the shard count to fit in a proxy's pool, or it
   * panics. A zero data-shard count makes the first placed shard divide by
   * zero whenever there is a parity shard; with no shards at all the source
   * runs without storing or counting anything, a case left unmodelled here.
   */
  predicate Runnable(opts: Options)
  {
    0 < opts.numDataShards && ShardCount(opts) <= opts.numLambdasPerProxy
  }

  /** The defaults spread twelve shards over a pool of 32 lambdas, so they are runnable. */
  lemma DefaultsRunnable()
    ensures ShardCount(DefaultOptions) == 12
    ensures Runnable(DefaultOptions)
  {
  }

  /** The size each shard of a record is charged: `rec.Sz / NumDataShards`. */
  function ShardSize(rec: Record, numDataShards: nat): u64
    requires numDataShards > 0
  {
    Div(rec.sz, numDataShards)
  }

  /**
   * What a miss adds to each selected lambda's memory cell:
   * `int(rec.Sz) / 1048576`, the whole record size in MiB (not divided by
   * the data-shard count), with Go's int conversion and truncating division.
   */
  function MemoryMiB(sz: u64): (r: int)
    ensures sz < HALF ==> 0 <= r && r * BYTES_PER_MIB <= sz < r * BYTES_PER_MIB + BYTES_PER_MIB
    ensures HALF <= sz ==> r <= 0
  {
    Quo(ToInt(sz), BYTES_PER_MIB)
  }

  /** `s` lists `k` pairwise distinct lambda indices, each below `n`. */
  predicate IsPlacement(s: seq<nat>, n: nat, k: nat)
  {
    && |s| == k
    && (forall i :: 0 <= i < |s| ==> s[i] < n)
    && (forall i, j :: 0 <= i < j < |s| ==> s[i] != s[j])
  }

  /** `perm` is a permutation of `[0, n)`, as `rand.Perm(n)` returns. */
  predicate IsPermutation(perm: seq<nat>, n: nat)
  {
    IsPlacement(perm, n, n)
  }

  /**
   * The lambdas that receive the shards of a new key: the first `numChunks`
   * entries of a random permutation of the pool's indices. The permutation
   * is passed in; the source draws it from a clock-seeded generator.
   */
  function Random(numLambdas: nat, numChunks: nat, perm: seq<nat>): (index: seq<nat>)
    requires IsPermutation(perm, numLambdas)
    requires numChunks <= numLambdas
    ensures IsPlacement(index, numLambdas, numChunks)
  {
    perm[..numChunks]
  }

  /** The global index of lambda `idx` of proxy `proxyIdx`. */
  function FlatIndex(proxyIdx: nat, numLambdasPerProxy: nat, idx: nat): nat
  {
    proxyIdx * numLambdasPerProxy + idx
  }

  /** The global indices of the lambdas `shards` of proxy `proxyIdx`. */
  function Lanes(proxyIdx: nat, numLambdasPerProxy: nat, shards: seq<nat>): set<nat>
  {
    set idx | idx in shards :: FlatIndex(proxyIdx, numLambdasPerProxy, idx)
  }

  /** A lambda of a proxy in range has a global index below the length of both accumulators. */
  lemma FlatIndexInRange(proxyIdx: nat, numProxies: nat, numLambdasPerProxy: nat, idx: nat)
    requires proxyIdx < numProxies && idx < numLambdasPerProxy
    ensures FlatIndex(proxyIdx, numLambdasPerProxy, idx) < numProxies * numLambdasPerProxy
  {
    var L := numLambdasPerProxy;
    assert (proxyIdx + 1) * L == proxyIdx * L + L;
    ProductMonotone(proxyIdx + 1, numProxies, L);
  }

  /** Distinct (proxy, lambda) pairs have distinct global indices. */
  lemma FlatIndexInjective(p: nat, q: nat, numLambdasPerProxy: nat, i: nat, j: nat)
    requires i < numLambdasPerProxy && j < numLambdasPerProxy
    requires FlatIndex(p, numLambdasPerProxy, i) == FlatIndex(q, numLambdasPerProxy, j)
    ensures p == q && i == j
  {
    var L := numLambdasPerProxy;
    if p < q {
      assert (p + 1) * L == p * L + L;
      ProductMonotone(p + 1, q, L);
      assert false;
    } else if q < p {
      assert (q + 1) * L == q * L + L;
      ProductMonotone(q + 1, p, L);
      assert false;
    }
  }

  lemma ProductMonotone(x: nat, y: nat, k: nat)
    requires x <= y
    ensures x * k <= y * k
  {
    assert y * k == x * k + (y - x) * k;
    NonNegativeProduct(y - x, k);
  }

  /** The lanes of a proxy's shards all lie within the accumulators. */
  lemma LanesInRange(proxyIdx: nat, numProxies: nat, numLambdasPerProxy: nat, shards: seq<nat>)
    requires proxyIdx < numProxies
    requires forall i :: 0 <= i < |shards| ==> shards[i] < numLambdasPerProxy
    ensures forall r :: r in Lanes(proxyIdx, numLambdasPerProxy, shards) ==> r < numProxies * numLambdasPerProxy
  {
    forall r | r in Lanes(proxyIdx, numLambdasPerProxy, shards)
      ensures r < numProxies * numLambdasPerProxy
    {
      var idx :| idx in shards && r == FlatIndex(proxyIdx, numLambdasPerProxy, idx);
      FlatIndexInRange(proxyIdx, numProxies, numLambdasPerProxy, idx);
    }
  }

  /** Distinct shard indices occupy as many distinct lanes. */
  lemma {:induction false} LanesSize(proxyIdx: nat, numLambdasPerProxy: nat, shards: seq<nat>)
    requires forall i, j :: 0 <= i < j < |shards| ==> shards[i] != shards[j]
    ensures |Lanes(proxyIdx, numLambdasPerProxy, shards)| == |shards|
  {
    if shards != [] {
      var n := |shards| - 1;
      var front := shards[..n];
      var lane := FlatIndex(proxyIdx, numLambdasPerProxy, shards[n]);
      assert front + [shards[n]] == shards;
      LanesSize(proxyIdx, numLambdasPerProxy, front);
      LanesSnoc(proxyIdx, numLambdasPerProxy, front, shards[n]);
      forall i | 0 <= i < n
        ensures FlatIndex(proxyIdx, numLambdasPerProxy, front[i]) != lane
      {
        assert front[i] == shards[i] != shards[n];
      }
      assert lane !in Lanes(proxyIdx, numLambdasPerProxy, front);
    }
  }

  /** Lambda `idx` of proxy `j` is among the lanes of proxy `p`'s shards exactly when `j` is `p` and `idx` is a shard. */
  lemma LanesMember(j: nat, p: nat, numLambdasPerProxy: nat, idx: nat, shards: seq<nat>)
    requires idx < numLambdasPerProxy
    requires forall i :: 0 <= i < |shards| ==> shards[i] < numLambdasPerProxy
    ensures FlatIndex(j, numLambdasPerProxy, idx) in Lanes(p, numLambdasPerProxy, shards) <==> j == p && idx in shards
  {
    if FlatIndex(j, numLambdasPerProxy, idx) in Lanes(p, numLambdasPerProxy, shards) {
      var s :| s in shards && FlatIndex(p, numLambdasPerProxy, s) == FlatIndex(j, numLambdasPerProxy, idx);
      FlatIndexInjective(p, j, numLambdasPerProxy, s, idx);
    }
  }

  /** Appending a shard adds its lane. */
  lemma LanesSnoc(proxyIdx: nat, numLambdasPerProxy: nat, shards: seq<nat>, idx: nat)
    ensures Lanes(proxyIdx, numLambdasPerProxy, shards + [idx])
         == Lanes(proxyIdx, numLambdasPerProxy, shards) + {FlatIndex(proxyIdx, numLambdasPerProxy, idx)}
  {
    var before := Lanes(proxyIdx, numLambdasPerProxy, shards);
    var after := Lanes(proxyIdx, numLambdasPerProxy, shards + [idx]);
    forall r | r in after
      ensures r in before + {FlatIndex(proxyIdx, numLambdasPerProxy, idx)}
    {
      var i :| i in shards + [idx] && r == FlatIndex(proxyIdx, numLambdasPerProxy, i);
      if i != idx {
        assert i in shards;
      }
    }
  }
}
