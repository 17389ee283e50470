/**
 * The replay of a trace (the record loop of the simulator's `main`): build
 * the proxies and the two accumulators, then route each record to a proxy
 * and perform it there.
 */
module Replay {
  import opened Uint64
  import opened SimTypes
  import opened Tally
  import opened Proxies
  import opened History

  /** The two running totals of the record loop, one record further. */
  lemma CountersStep(k: int, i: int, total: int, total': int, due: int, due': int, charged: int, sum: int, sum': int)
    requires total == k * i && total' == total + k
    requires sum == k * due && sum' == sum + k * charged && due' == due + charged
    ensures total' == k * (i + 1)
    ensures sum' == k * due'
  {
    assert k * (i + 1) == k * i + k;
    assert k * (due + charged) == k * due + k * charged;
  }

  /** Every key of `placement` routes to proxy `j` and occurs in `done`. */
  predicate KnownOnlyHere(placement: map<string, seq<nat>>, j: nat, route: string -> nat, done: seq<Record>)
  {
    forall key :: key in placement ==> route(key) == j && key in Keys(done)
  }

  /**
   * Every object a lambda holds sums up its key's history in `done`: its
   * size is the latest record's size divided by the data-shard count, and
   * its frequency counts the key's hits, wrapping around as a uint64.
   */
  predicate Tallied(lambdas: seq<Lambda>, numDataShards: nat, done: seq<Record>)
    requires numDataShards > 0
  {
    forall i, key :: 0 <= i < |lambdas| && key in lambdas[i].kvs ==>
      lambdas[i].kvs[key] == Object(key, Div(LastSize(done, key), numDataShards), Hits(done, key) % LIMIT)
  }

  /**
   * An access to a proxy keeps its objects tallied, the access now part of
   * the history: a hit refreshes the size and counts one more hit, a miss
   * creates the object with no hits, and other objects keep their history.
   */
  lemma TalliedStep(lambdas: seq<Lambda>, lambdas': seq<Lambda>, placement: map<string, seq<nat>>, numChunks: nat,
                    rec: Record, numDataShards: nat, hit: bool, shards: seq<nat>, done: seq<Record>)
    requires numDataShards > 0
    requires Tallied(lambdas, numDataShards, done) && Consistent(placement, lambdas, numChunks)
    requires hit <==> rec.key in placement
    requires hit <==> rec.key in Keys(done)
    requires hit ==> shards == placement[rec.key]
    requires PoolAccessed(lambdas, lambdas', rec, numDataShards, hit, shards)
    ensures Tallied(lambdas', numDataShards, done + [rec])
  {
    var done' := done + [rec];
    forall i, key | 0 <= i < |lambdas'| && key in lambdas'[i].kvs
      ensures lambdas'[i].kvs[key]
           == Object(key, Div(LastSize(done', key), numDataShards), Hits(done', key) % LIMIT)
    {
      HistorySnoc(done, rec, key);
      if i !in shards {
        assert key in lambdas[i].kvs && i in placement[key];
        assert key != rec.key;
      } else if key == rec.key && hit {
        IncWraps(Hits(done, key));
      } else if key == rec.key {
        HitsCount(done, key);
      }
    }
  }

  /** A record of another proxy's key leaves a proxy's objects tallied. */
  lemma TalliedElsewhere(lambdas: seq<Lambda>, numDataShards: nat, done: seq<Record>, rec: Record)
    requires numDataShards > 0
    requires Tallied(lambdas, numDataShards, done)
    requires forall i, key :: 0 <= i < |lambdas| && key in lambdas[i].kvs ==> key != rec.key
    ensures Tallied(lambdas, numDataShards, done + [rec])
  {
    forall i, key | 0 <= i < |lambdas| && key in lambdas[i].kvs
      ensures lambdas[i].kvs[key]
           == Object(key, Div(LastSize(done + [rec], key), numDataShards), Hits(done + [rec], key) % LIMIT)
    {
      HistorySnoc(done, rec, key);
    }
  }

  /**
   * The maps and pools of all proxies after replaying `done`, proxy `j`'s
   * at position `j`: each map is consistent with its pool, a key is known
   * to proxy `j` only when it routes to `j` and occurred in `done`, every
   * object is tallied, and every key of `done` is known to its proxy.
   */
  ghost predicate Known(placements: seq<map<string, seq<nat>>>, pools: seq<seq<Lambda>>,
                        opts: Options, route: string -> nat, done: seq<Record>)
  {
    && |placements| == |pools|
    && 0 < opts.numDataShards
    && (forall j :: 0 <= j < |placements| ==>
          && Consistent(placements[j], pools[j], ShardCount(opts))
          && KnownOnlyHere(placements[j], j, route, done)
          && Tallied(pools[j], opts.numDataShards, done))
    && (forall i :: 0 <= i < |done| ==>
          route(done[i].key) < |placements| && done[i].key in placements[route(done[i].key)])
  }

  /**
   * One access, as `perform` makes it to proxy `route(rec.key)`, extends
   * the replayed prefix by `rec`; it is a hit exactly when the key occurred
   * before.
   */
  lemma KnownStep(placements: seq<map<string, seq<nat>>>, pools: seq<seq<Lambda>>, opts: Options,
                  route: string -> nat, done: seq<Record>, rec: Record, hit: bool, shards: seq<nat>,
                  placement': map<string, seq<nat>>, pool': seq<Lambda>)
    requires Known(placements, pools, opts, route, done)
    requires route(rec.key) < |placements|
    requires Consistent(placement', pool', ShardCount(opts))
    requires Filed(placements[route(rec.key)], placement', rec, hit, shards)
    requires PoolAccessed(pools[route(rec.key)], pool', rec, opts.numDataShards, hit, shards)
    ensures hit <==> rec.key in Keys(done)
    ensures Known(placements[route(rec.key) := placement'], pools[route(rec.key) := pool'],
                  opts, route, done + [rec])
  {
    var id := route(rec.key);
    var done' := done + [rec];
    var placements' := placements[id := placement'];
    var pools' := pools[id := pool'];
    KeysAppend(done, rec);
    if rec.key in Keys(done) {
      var k :| 0 <= k < |done| && done[k].key == rec.key;
    }
    assert KnownOnlyHere(placements[id], id, route, done);
    forall j | 0 <= j < |placements'|
      ensures KnownOnlyHere(placements'[j], j, route, done')
      ensures Tallied(pools'[j], opts.numDataShards, done')
    {
      assert KnownOnlyHere(placements[j], j, route, done);
      if j == id {
        TalliedStep(pools[id], pool', placements[id], ShardCount(opts), rec, opts.numDataShards, hit, shards, done);
      } else {
        TalliedElsewhere(pools[j], opts.numDataShards, done, rec);
      }
    }
    forall i | 0 <= i < |done'|
      ensures done'[i].key in placements'[route(done'[i].key)]
    {
      if i < |done| {
        assert done[i].key in placements[route(done[i].key)];
      }
    }
  }

  /** Proxies without keys, over pools of empty lambdas, have replayed the empty trace. */
  lemma KnownInitially(placements: seq<map<string, seq<nat>>>, pools: seq<seq<Lambda>>, opts: Options,
                       route: string -> nat)
    requires 0 < opts.numDataShards && |placements| == |pools|
    requires forall j :: 0 <= j < |placements| ==> placements[j] == map[]
    requires forall j, i :: 0 <= j < |pools| && 0 <= i < |pools[j]| ==> pools[j][i] == EmptyLambda
    ensures Known(placements, pools, opts, route, [])
  {
    forall j | 0 <= j < |placements|
      ensures Consistent(placements[j], pools[j], ShardCount(opts))
    {
      EmptyPoolConsistent(pools[j], ShardCount(opts));
    }
  }

  /**
   * `rows[w]` counts, for lambda `w` = (proxy `j`, lambda `idx`), the
   * records of `done` whose key proxy `j` placed on `idx`.
   */
  ghost predicate Visited(rows: seq<int>, placements: seq<map<string, seq<nat>>>, numLambdasPerProxy: nat,
                          done: seq<Record>)
  {
    forall j, idx :: 0 <= j < |placements| && 0 <= idx < numLambdasPerProxy
                     && FlatIndex(j, numLambdasPerProxy, idx) < |rows| ==>
      rows[FlatIndex(j, numLambdasPerProxy, idx)] == Visits(done, placements[j], idx)
  }

  /**
   * Cell `g[w][h]` counts, for lambda `w` = (proxy `j`, lambda `idx`), the
   * records of `done` in hour `h` whose key proxy `j` placed on `idx`.
   */
  ghost predicate VisitedAt(g: seq<seq<int>>, placements: seq<map<string, seq<nat>>>, numLambdasPerProxy: nat,
                            done: seq<Record>)
  {
    forall j, idx, h :: 0 <= j < |placements| && 0 <= idx < numLambdasPerProxy
                        && FlatIndex(j, numLambdasPerProxy, idx) < |g| && 0 <= h < |g[FlatIndex(j, numLambdasPerProxy, idx)]| ==>
      g[FlatIndex(j, numLambdasPerProxy, idx)][h] == VisitsAt(done, placements[j], idx, h)
  }

  /**
   * `mem[w]` holds, for lambda `w` = (proxy `j`, lambda `idx`), the MiB
   * charged to it by the first sights up to hour 99 of the keys proxy `j`
   * placed on `idx`.
   */
  ghost predicate Billed(mem: seq<int>, placements: seq<map<string, seq<nat>>>, numLambdasPerProxy: nat,
                         done: seq<Record>)
  {
    forall j, idx :: 0 <= j < |placements| && 0 <= idx < numLambdasPerProxy
                     && FlatIndex(j, numLambdasPerProxy, idx) < |mem| ==>
      mem[FlatIndex(j, numLambdasPerProxy, idx)] == Charged(done, placements[j], idx)
  }

  /** Accumulators of zeros are in step with the empty trace. */
  lemma NothingCharged(rows: seq<int>, mem: seq<int>, placements: seq<map<string, seq<nat>>>,
                       numLambdasPerProxy: nat)
    requires forall w :: 0 <= w < |rows| ==> rows[w] == 0
    requires forall w :: 0 <= w < |mem| ==> mem[w] == 0
    ensures Visited(rows, placements, numLambdasPerProxy, [])
    ensures Billed(mem, placements, numLambdasPerProxy, [])
  {
  }

  /** A timeline of zeros is in step, hour by hour, with the empty trace. */
  lemma NothingVisited(g: seq<seq<int>>, placements: seq<map<string, seq<nat>>>, numLambdasPerProxy: nat)
    requires forall w, h :: 0 <= w < |g| && 0 <= h < |g[w]| ==> g[w][h] == 0
    ensures VisitedAt(g, placements, numLambdasPerProxy, [])
  {
  }

  /**
   * One access keeps the timeline in step with the history hour by hour:
   * each lane of the key's shards gains a visit in the record's hour, and
   * no other cell changes.
   */
  lemma TimelineStep(placements: seq<map<string, seq<nat>>>, pools: seq<seq<Lambda>>, opts: Options,
                     route: string -> nat, done: seq<Record>, rec: Record, hit: bool, shards: seq<nat>,
                     placement': map<string, seq<nat>>, g: seq<seq<int>>, g': seq<seq<int>>)
    requires Known(placements, pools, opts, route, done)
    requires VisitedAt(g, placements, opts.numLambdasPerProxy, done)
    requires route(rec.key) < |placements|
    requires Filed(placements[route(rec.key)], placement', rec, hit, shards)
    requires forall i :: 0 <= i < |shards| ==> shards[i] < opts.numLambdasPerProxy
    requires Ticked(g, g', rec.timestampHr, Lanes(route(rec.key), opts.numLambdasPerProxy, shards))
    ensures VisitedAt(g', placements[route(rec.key) := placement'], opts.numLambdasPerProxy, done + [rec])
  {
    var id := route(rec.key);
    var L := opts.numLambdasPerProxy;
    var placements' := placements[id := placement'];
    if rec.key !in placements[id] {
      AgreeOnUpdate(done, placements[id], rec.key, shards);
    }
    forall j, idx, h | 0 <= j < |placements'| && 0 <= idx < L
                       && FlatIndex(j, L, idx) < |g'| && 0 <= h < |g'[FlatIndex(j, L, idx)]|
      ensures g'[FlatIndex(j, L, idx)][h] == VisitsAt(done + [rec], placements'[j], idx, h)
    {
      LanesMember(j, id, L, idx, shards);
      ChargesSnoc(done, rec, placements'[j], idx);
      if j == id {
        AgreeingMapsAt(done, placements[id], placement', idx, h);
      } else {
        assert KnownOnlyHere(placements[j], j, route, done);
      }
    }
  }

  /**
   * A timeline in step with the history hour by hour, whose rows span every
   * hour of the trace, is in step with it row by row.
   */
  lemma VisitedFromCells(g: seq<seq<int>>, placements: seq<map<string, seq<nat>>>, numLambdasPerProxy: nat,
                         done: seq<Record>, numHours: nat)
    requires VisitedAt(g, placements, numLambdasPerProxy, done)
    requires forall w :: 0 <= w < |g| ==> |g[w]| == numHours
    requires forall i :: 0 <= i < |done| ==> done[i].timestampHr < numHours
    ensures Visited(RowSums(g), placements, numLambdasPerProxy, done)
  {
    var L := numLambdasPerProxy;
    forall j, idx | 0 <= j < |placements| && 0 <= idx < L && FlatIndex(j, L, idx) < |g|
      ensures RowSums(g)[FlatIndex(j, L, idx)] == Visits(done, placements[j], idx)
    {
      var w := FlatIndex(j, L, idx);
      assert g[w] == HourCounts(done, placements[j], idx, numHours);
      VisitsByHour(done, placements[j], idx, numHours);
    }
  }

  /**
   * One access keeps both accumulators in step with the history: each lane
   * of the key's shards gains a visit, and on a miss up to hour 99 it is
   * charged the record's MiB; no other cell changes.
   */
  lemma AccumulatorsStep(placements: seq<map<string, seq<nat>>>, pools: seq<seq<Lambda>>, opts: Options,
                         route: string -> nat, done: seq<Record>, rec: Record, hit: bool, shards: seq<nat>,
                         placement': map<string, seq<nat>>,
                         rows: seq<int>, rows': seq<int>, mem: seq<int>, mem': seq<int>)
    requires Known(placements, pools, opts, route, done)
    requires Visited(rows, placements, opts.numLambdasPerProxy, done)
    requires Billed(mem, placements, opts.numLambdasPerProxy, done)
    requires route(rec.key) < |placements|
    requires hit <==> rec.key in Keys(done)
    requires Filed(placements[route(rec.key)], placement', rec, hit, shards)
    requires forall i :: 0 <= i < |shards| ==> shards[i] < opts.numLambdasPerProxy
    requires Bumped(rows, rows', Lanes(route(rec.key), opts.numLambdasPerProxy, shards), 1)
    requires Bumped(mem, mem', Lanes(route(rec.key), opts.numLambdasPerProxy, shards),
                    if !hit && rec.timestampHr <= LAST_MEMORY_HOUR then MemoryMiB(rec.sz) else 0)
    ensures Visited(rows', placements[route(rec.key) := placement'], opts.numLambdasPerProxy, done + [rec])
    ensures Billed(mem', placements[route(rec.key) := placement'], opts.numLambdasPerProxy, done + [rec])
  {
    var id := route(rec.key);
    var L := opts.numLambdasPerProxy;
    var placements' := placements[id := placement'];
    if !hit {
      AgreeOnUpdate(done, placements[id], rec.key, shards);
    }
    forall j, idx | 0 <= j < |placements'| && 0 <= idx < L
      ensures FlatIndex(j, L, idx) in Lanes(id, L, shards) <==> j == id && idx in shards
      ensures Visits(done + [rec], placements'[j], idx)
           == Visits(done, placements[j], idx) + (if j == id && idx in shards then 1 else 0)
      ensures Charged(done + [rec], placements'[j], idx)
           == Charged(done, placements[j], idx)
              + (if j == id && idx in shards && !hit && rec.timestampHr <= LAST_MEMORY_HOUR
                 then MemoryMiB(rec.sz) else 0)
    {
      LanesMember(j, id, L, idx, shards);
      ChargesSnoc(done, rec, placements'[j], idx);
      if j == id {
        AgreeingMaps(done, placements[id], placement', idx);
      } else {
        assert KnownOnlyHere(placements[j], j, route, done);
      }
    }
  }

  /** The key-to-lambdas maps of `proxies`, in order. */
  ghost function Placements(proxies: seq<Proxy>): (ms: seq<map<string, seq<nat>>>)
    reads set j | 0 <= j < |proxies| :: proxies[j]
    ensures |ms| == |proxies|
    ensures forall j :: 0 <= j < |proxies| ==> ms[j] == proxies[j].placement
  {
    seq(|proxies|, j requires 0 <= j < |proxies| reads set k | 0 <= k < |proxies| :: proxies[k] =>
      proxies[j].placement)
  }

  /** The pools of `proxies`, in order. */
  ghost function Pools(proxies: seq<Proxy>): (ls: seq<seq<Lambda>>)
    reads set j | 0 <= j < |proxies| :: proxies[j].pool
    ensures |ls| == |proxies|
    ensures forall j :: 0 <= j < |proxies| ==> ls[j] == proxies[j].pool[..]
  {
    seq(|proxies|, j requires 0 <= j < |proxies| reads set k | 0 <= k < |proxies| :: proxies[k].pool =>
      proxies[j].pool[..])
  }

  /**
   * The state of a run after some prefix `done` of the trace: proxy `j` has
   * index `j` and a pool of `numLambdasPerProxy` lambdas of its own, and the
   * maps and pools are as `Known` describes.
   */
  ghost predicate Replayed(proxies: seq<Proxy>, opts: Options, route: string -> nat, done: seq<Record>)
    reads set j | 0 <= j < |proxies| :: proxies[j]
    reads set j | 0 <= j < |proxies| :: proxies[j].pool
  {
    && |proxies| == opts.numProxies
    && (forall j :: 0 <= j < |proxies| ==>
          proxies[j].id == j && proxies[j].pool.Length == opts.numLambdasPerProxy)
    && (forall j, j' :: 0 <= j < j' < |proxies| ==> proxies[j].pool != proxies[j'].pool)
    && Known(Placements(proxies), Pools(proxies), opts, route, done)
  }

  /**
   * One pass of the record loop: route `rec` to its proxy and perform it
   * there. The state stays replayed, now including `rec`, and both
   * accumulators stay in step with it; the access is a hit exactly when
   * the key occurred before; the timeline gains one count per shard, and
   * the memory array gains, per shard, the record's MiB when it is a first
   * sight up to hour 99.
   */
  method Dispatch(proxies: seq<Proxy>, opts: Options, route: string -> nat, rec: Record, perm: seq<nat>,
                  reuseTimeline: array2<int>, memArr: array<int>, ghost done: seq<Record>)
    returns (ghost hit: bool)
    requires Runnable(opts)
    requires Replayed(proxies, opts, route, done)
    requires Visited(RowSums(Grid(reuseTimeline)), Placements(proxies), opts.numLambdasPerProxy, done)
    requires VisitedAt(Grid(reuseTimeline), Placements(proxies), opts.numLambdasPerProxy, done)
    requires Billed(memArr[..], Placements(proxies), opts.numLambdasPerProxy, done)
    requires route(rec.key) < opts.numProxies
    requires reuseTimeline.Length0 == opts.numProxies * opts.numLambdasPerProxy == memArr.Length
    requires rec.timestampHr < reuseTimeline.Length1
    requires IsPermutation(perm, opts.numLambdasPerProxy)
    modifies proxies[route(rec.key)], proxies[route(rec.key)].pool, reuseTimeline, memArr
    ensures Replayed(proxies, opts, route, done + [rec])
    ensures Visited(RowSums(Grid(reuseTimeline)), Placements(proxies), opts.numLambdasPerProxy, done + [rec])
    ensures VisitedAt(Grid(reuseTimeline), Placements(proxies), opts.numLambdasPerProxy, done + [rec])
    ensures Billed(memArr[..], Placements(proxies), opts.numLambdasPerProxy, done + [rec])
    ensures hit <==> rec.key in Keys(done)
    ensures Total(Grid(reuseTimeline)) == old(Total(Grid(reuseTimeline))) + ShardCount(opts)
    ensures Sum(memArr[..]) == old(Sum(memArr[..]))
      + ShardCount(opts) * (if !hit && rec.timestampHr <= LAST_MEMORY_HOUR then MemoryMiB(rec.sz) else 0)
  {
    var id := route(rec.key);
    var p := proxies[id];
    ghost var ms := Placements(proxies);
    ghost var ls := Pools(proxies);
    ghost var grid := Grid(reuseTimeline);
    ghost var rows := RowSums(grid);
    ghost var mem := memArr[..];
    ghost var shards: seq<nat>;
    hit, shards := Perform(p, rec, reuseTimeline, memArr, opts, perm);
    forall j | 0 <= j < |proxies| && j != id
      ensures proxies[j].placement == ms[j]
      ensures proxies[j].pool[..] == ls[j]
    {
      assert proxies[j] != p;
    }
    assert Placements(proxies) == ms[id := p.placement];
    assert Pools(proxies) == ls[id := p.pool[..]];
    KnownStep(ms, ls, opts, route, done, rec, hit, shards, p.placement, p.pool[..]);
    AccumulatorsStep(ms, ls, opts, route, done, rec, hit, shards, p.placement,
                     rows, RowSums(Grid(reuseTimeline)), mem, memArr[..]);
    TimelineStep(ms, ls, opts, route, done, rec, hit, shards, p.placement, grid, Grid(reuseTimeline));
  }

  /**
   * The state before the first record: the proxies of `initProxies`, a
   * reuse timeline of zeros from `initTimeline` and a memory array of zeros,
   * one cell per lambda.
   */
  method Setup(opts: Options, route: string -> nat)
    returns (proxies: seq<Proxy>, reuseTimeline: array2<int>, memArr: array<int>)
    requires Runnable(opts)
    ensures forall j :: 0 <= j < |proxies| ==> fresh(proxies[j]) && fresh(proxies[j].pool)
    ensures fresh(reuseTimeline) && fresh(memArr)
    ensures reuseTimeline.Length0 == opts.numProxies * opts.numLambdasPerProxy == memArr.Length
    ensures reuseTimeline.Length1 == opts.numHours
    ensures Replayed(proxies, opts, route, [])
    ensures Visited(RowSums(Grid(reuseTimeline)), Placements(proxies), opts.numLambdasPerProxy, [])
    ensures VisitedAt(Grid(reuseTimeline), Placements(proxies), opts.numLambdasPerProxy, [])
    ensures Billed(memArr[..], Placements(proxies), opts.numLambdasPerProxy, [])
    ensures Total(Grid(reuseTimeline)) == 0
    ensures Sum(memArr[..]) == 0
  {
    var numLambdas := opts.numProxies * opts.numLambdasPerProxy;
    proxies := InitProxies(opts.numProxies, opts.numLambdasPerProxy);
    reuseTimeline := InitTimeline(numLambdas, opts.numHours);
    memArr := new int[numLambdas](_ => 0);
    TotalOfZeros(Grid(reuseTimeline));
    SumOfZeros(memArr[..]);
    KnownInitially(Placements(proxies), Pools(proxies), opts, route);
    NothingCharged(RowSums(Grid(reuseTimeline)), memArr[..], Placements(proxies), opts.numLambdasPerProxy);
    NothingVisited(Grid(reuseTimeline), Placements(proxies), opts.numLambdasPerProxy);
  }

  /**
   * Replays `records` from freshly built state. `route` stands for the
   * consistent-hash ring (it maps every key to a proxy index) and
   * `perms[i]` for the random permutation drawn if record `i` is a miss.
   * Each record adds one count per shard to the reuse timeline; the memory
   * array ends up holding, per shard, the MiB of each first sight of a key
   * up to hour 99; every key of the trace ends up known to its proxy.
   */
  method Run(opts: Options, records: seq<Record>, route: string -> nat, perms: seq<seq<nat>>)
    returns (proxies: seq<Proxy>, reuseTimeline: array2<int>, memArr: array<int>)
    requires Runnable(opts)
    requires forall key :: route(key) < opts.numProxies
    requires forall i :: 0 <= i < |records| ==> records[i].timestampHr < opts.numHours
    requires |perms| == |records|
    requires forall i :: 0 <= i < |perms| ==> IsPermutation(perms[i], opts.numLambdasPerProxy)
    ensures fresh(reuseTimeline) && fresh(memArr)
    ensures reuseTimeline.Length0 == opts.numProxies * opts.numLambdasPerProxy == memArr.Length
    ensures reuseTimeline.Length1 == opts.numHours
    ensures Replayed(proxies, opts, route, records)
    ensures Visited(RowSums(Grid(reuseTimeline)), Placements(proxies), opts.numLambdasPerProxy, records)
    ensures VisitedAt(Grid(reuseTimeline), Placements(proxies), opts.numLambdasPerProxy, records)
    ensures Billed(memArr[..], Placements(proxies), opts.numLambdasPerProxy, records)
    ensures Total(Grid(reuseTimeline)) == ShardCount(opts) * |records|
    ensures Sum(memArr[..]) == ShardCount(opts) * MemoryDue(records)
  {
    proxies, reuseTimeline, memArr := Setup(opts, route);
    assert records[..0] == [];
    for i := 0 to |records|
      invariant forall j :: 0 <= j < |proxies| ==> fresh(proxies[j]) && fresh(proxies[j].pool)
      invariant fresh(reuseTimeline) && fresh(memArr)
      invariant Replayed(proxies, opts, route, records[..i])
      invariant Visited(RowSums(Grid(reuseTimeline)), Placements(proxies), opts.numLambdasPerProxy, records[..i])
      invariant VisitedAt(Grid(reuseTimeline), Placements(proxies), opts.numLambdasPerProxy, records[..i])
      invariant Billed(memArr[..], Placements(proxies), opts.numLambdasPerProxy, records[..i])
      invariant Total(Grid(reuseTimeline)) == ShardCount(opts) * i
      invariant Sum(memArr[..]) == ShardCount(opts) * MemoryDue(records[..i])
    {
      var rec := records[i];
      ghost var total := Total(Grid(reuseTimeline));
      ghost var sum := Sum(memArr[..]);
      ghost var hit := Dispatch(proxies, opts, route, rec, perms[i], reuseTimeline, memArr, records[..i]);
      PrefixSnoc(records, i);
      MemoryDueStep(records, i, hit);
      ghost var charged := if !hit && rec.timestampHr <= LAST_MEMORY_HOUR then MemoryMiB(rec.sz) else 0;
      CountersStep(ShardCount(opts), i, total, Total(Grid(reuseTimeline)),
                   MemoryDue(records[..i]), MemoryDue(records[..i + 1]), charged, sum, Sum(memArr[..]));
    }
    assert records[..|records|] == records;
  }
}
