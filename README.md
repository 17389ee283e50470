# Trace-replay accounting of the redbench simulator

This project models the accounting engine of `sim.go`, the simulator of the
redbench repository. The simulator replays a trace of object accesses
against proxies. Each proxy has a pool of cache workers called lambdas. A
key is stored as erasure-coded shards: `NumDataShards + NumParityShards`
lambdas of one proxy each hold one shard.

For each record, the replay loop routes the key to a proxy and calls
`perform`:

- **Hit.** The key is already in the proxy's map. Each listed lambda's
  object of the key gets the new shard size and one more access.
- **Miss.** The key is new. A random choice of distinct lambdas becomes the
  key's placement, and each chosen lambda gets a new object and is charged
  the shard size.

Either way the record increments two global accumulators. The reuse
timeline counts each listed lambda's access in the record's hour. On a miss
up to hour 99, the memory array adds the record size in MiB to each chosen
lambda.

The modules:

- `Uint64` (uint64.dfy): Go's uint64 wrap-around, the `int(x)` conversion
  of a uint64 and Go's truncating integer division.
- `SimTypes` (types.dfy): the `Object`, `Lambda` and `Record` values, the
  options, `random` and the flat lambda index `proxyIdx*L + idx`.
- `Tally` (tally.dfy): sums over the accumulators, and what bumping a set
  of distinct cells does to them.
- `Proxies` (proxy.dfy): the `Proxy` class, with its pool as an array of
  lambdas and its key-to-lambdas map as a field. It also holds `perform`
  and its two loops, `initProxies` and `initTimeline`.
- `History` (trace.dfy): the quantities that a prefix of the trace
  determines. For each key: whether it was seen, how often it was hit and
  its latest size. For each lambda: how many accesses it had and how much
  memory it was charged.
- `Replay` (replay.dfy): the record loop of `main`. It proves the
  following after any prefix of the trace:
  - each proxy's map and every object its lambdas hold equal those history
    functions;
  - each timeline cell, per lambda and per hour, counts the lambda's
    accesses in that hour, so each row sum is its accesses overall;
  - each memory cell is the lambda's memory charge.

  The lambdas' `MemUsed` totals are the one part of the state this does
  not relate to the history.
- `Scenario` (scenario.dfy): one concrete replay. One proxy with four
  lambdas sees two accesses of the same key.

Two inputs that the program draws itself are parameters of the model:

- `route` stands for the consistent-hash ring. It is any function from key
  to proxy index below the proxy count.
- `perm` stands for `rand.Perm(numLambdas)`. It is any permutation of the
  pool's indices; `Run` takes one per record.

## Model

| member | source | states |
|---|---|---|
| Uint64.Add | sim.go:92 | `MemUsed +=` on uint64 is the plain sum below 2^64 and the sum minus 2^64 from there on |
| Uint64.Inc | sim.go:70 | `Freq++` on uint64 adds one, except that 2^64-1 wraps to 0 |
| Uint64.IncWraps | sim.go:70 | counting n+1 in uint64 from n mod 2^64 gives (n+1) mod 2^64 |
| Uint64.Div | sim.go:69 | `rec.Sz / uint64(d)` is the floor quotient: q*d <= sz < q*d + d |
| Uint64.ToInt | sim.go:101 | `int(rec.Sz)` is congruent to the uint64 modulo 2^64 and lies in the int64 range |
| Uint64.Quo | sim.go:101 | Go's `/` on int truncates toward zero: bounds for non-negative and negative dividends |
| SimTypes.DefaultsRunnable | sim.go:193-202 | the default options place 12 shards, which fit the default pool of 32 lambdas |
| SimTypes.MemoryMiB | sim.go:101 | the MiB added to the memory array: floor(sz / 2^20) for sizes below 2^63, and not positive from 2^63 on |
| SimTypes.Random | sim.go:58-61 | the lambdas of a new key are `numChunks` pairwise-distinct indices below the pool size |
| SimTypes.FlatIndexInRange | sim.go:75 | `proxyIdx*L + idx` lies below `NumProxies*L`, the length of both accumulators (sim.go:247, 249) |
| SimTypes.FlatIndexInjective | sim.go:97 | distinct (proxy, lambda) pairs have distinct flat indices |
| SimTypes.LanesSize | sim.go:84-86 | distinct shard indices of one proxy occupy as many distinct accumulator rows |
| SimTypes.LanesMember | sim.go:75 | lambda (j, idx) is among the rows of proxy p's shards exactly when j = p and idx is a shard |
| Tally.SumBumped | sim.go:101 | adding an amount to a set of distinct cells adds the amount times the set's size to the sum |
| Tally.TotalBumped | sim.go:78 | incrementing one column of a set of rows adds one to each of those row sums, and the set's size to the total |
| Proxies.Touch | sim.go:68-70 | on a hit, a lambda's object of the key gets the shard size and one more access; its other objects and its `MemUsed` stay |
| Proxies.Place | sim.go:87-92 | on a miss, a lambda gets an object of the key with the shard size and `Freq` 0, and `MemUsed` grows by the shard size, wrapping as uint64 |
| Proxies.EmptyPoolConsistent | sim.go:150-155 | a proxy with an empty map over empty lambdas satisfies the map/objects consistency invariant |
| Proxies.HitKeepsConsistent | sim.go:65-79 | a hit keeps every listed lambda holding the key, and the map and pool consistent |
| Proxies.MissKeepsConsistent | sim.go:84-105 | a miss that files a new key under a placement keeps the map and pool consistent |
| Proxies.Proxy.constructor | sim.go:149-155 | a proxy with its index, `nLambdasPerProxy` empty lambdas and an empty map |
| Proxies.Perform | sim.go:63-108 | hit exactly when the key is in the map; a hit leaves the map alone and a miss files the `random` placement; each listed lambda is touched or placed and no other changes; exactly the listed lambdas' timeline cells of the record's hour grow by one; memory cells grow by the MiB only on a miss up to hour 99; the invariant holds; the timeline total grows by the shard count |
| Proxies.RefreshShards | sim.go:67-79 | the hit loop touches exactly the listed lambdas and increments exactly their timeline cells for the hour |
| Proxies.PlaceShards | sim.go:86-105 | the miss loop places exactly the chosen lambdas, increments exactly their timeline cells, and adds the MiB to exactly their memory cells when the hour is at most 99 |
| Proxies.PlaceShard | sim.go:87-104 | one iteration of the miss loop: one lambda placed, its memory cell and one timeline cell updated, nothing else |
| Proxies.InitProxies | sim.go:145-159 | proxy i has index i, its own pool of `nLambdasPerProxy` empty lambdas with `MemUsed` 0, and an empty map |
| Proxies.InitTimeline | sim.go:173-180 | `numLambdas` rows of `numHours` zeros |
| History.MemoryDueOutsideWindow | sim.go:100-102 | records after hour 99 never charge the memory array |
| History.MemoryDueOfRepeat | sim.go:65-80 | repeating an access of a known key charges no memory |
| History.MemoryDueNonNegative | sim.go:101 | with record sizes below 2^63, the memory charge of a trace is not negative |
| History.OccurrencesPositive | sim.go:65 | a key occurs in the trace exactly when it has been seen |
| History.HitsCount | sim.go:65-70 | a seen key's hits are its occurrences minus the first; an unseen key has none |
| History.AgreeingMaps | sim.go:85 | filing a new key does not change the visits or charges of the keys already replayed |
| History.AgreeingMapsAt | sim.go:85 | filing a new key does not change the per-hour visits of the keys already replayed |
| Replay.TalliedStep | sim.go:65-107 | after an access every object is the key's latest size divided by the data-shard count, with its hit count modulo 2^64 as `Freq` |
| Replay.KnownStep | sim.go:273-277 | one access keeps every proxy consistent, its keys routed to it and seen, and its objects tallied; the access is a hit exactly when the key occurred earlier in the trace |
| Replay.TimelineStep | sim.go:73-78 | after an access, each timeline cell (lambda, hour) is the number of accesses of that lambda in that hour so far |
| Replay.VisitedFromCells | sim.go:78 | per-hour cells equal to the per-hour visits give row sums equal to the visits overall, when every record's hour lies within the rows |
| History.VisitsByHour | sim.go:78 | a lambda's visits split over the hours: their per-hour counts sum to the total, when every hour is below the row length |
| Replay.AccumulatorsStep | sim.go:73-104 | after an access, each timeline row sum is the visits of its lambda so far and each memory cell its charges |
| Replay.Dispatch | sim.go:273-277 | one pass of the record loop keeps the replayed state and both accumulators in step with the history: every timeline cell per lambda and hour, every row sum, every memory cell; the totals grow by the shard count and by the shard count × the record's MiB on a first sight up to hour 99 |
| Replay.Setup | sim.go:246-249 | the initial proxies with zeroed accumulators (a `NumHours`-wide timeline) have replayed the empty trace, cell by cell |
| Replay.Run | sim.go:246-278 | after the trace: every key is known to its routed proxy with a consistent placement and tallied objects; each timeline cell is the lambda's accesses in that hour, timeline row sums are per-lambda visits and memory cells are per-lambda charges; the timeline total is shard count × records; the memory total is shard count × MiB of first sights up to hour 99 |
| Scenario.TwoRecords | sim.go:65-107 | two accesses of one key: one hit, 300 MiB due, each listed lambda visited twice (once in hour 0 and once in hour 1) and charged 300 MiB once |
| Scenario.OneKeyPlaced | sim.go:84-92 | after those accesses the key sits on three distinct lambdas as an object of half the size with one hit, and the fourth lambda holds nothing |
| Scenario.TwoAccesses | sim.go:252-278 | the replay of the two accesses ends with cells 1 in hours 0 and 1 for the three listed lambdas and 0 for the fourth, row sums 2, 2, 2, 0, memory cells 300, 300, 300, 0, a timeline total of 6 and a memory total of 900 |

## Left out

- The consistent-hash ring and xxhash (`consistent.New`, `ring.LocateKey`)
  are foreign library code. Routing is the parameter `route`, and `Run`
  requires every key to route below the proxy count.
- The clock-seeded `rand.Perm` is replaced by a permutation argument, so a
  run is modelled for every possible choice of lambdas.
- CSV reading, float parsing and the float-to-uint64 truncation of the
  record fields are I/O and floating point. `Run` takes the records as
  values.
- Proxy ids are decimal strings in the source (`strconv.Itoa` and
  `strconv.Atoi`). The model carries the index as a `nat`.
- These are I/O and command-line plumbing and are not modelled:
  `printAccessHistory`, `printMemUsage`, logging, flag parsing,
  `helpInfo` and `Member.String`.
- The options are naturals in the model. The source takes every count
  from `flag.IntVar` and does not check it, so negative flag values reach
  `perform`. Two cases are not modelled:
  - a negative parity count shrinks the placement below the data-shard
    divisor;
  - a negative data-shard count becomes a huge uint64 divisor.
- The `int` counters of the timeline and the memory array are unbounded in
  the model. Their int64 overflow is not modelled.
- `[][]int` for the timeline becomes a rectangular `array2`, which is how
  `initTimeline` builds it.
- The objects behind the `*Object` pointers are values held in each
  lambda's map. Each pointer is stored in exactly one map entry, so no
  aliasing is lost.
- Index panics of the source are preconditions rather than modelled
  crashes:
  - a record hour at or beyond `NumHours`;
  - a shard count above the pool size, where the slice in `random` fails;
  - a zero data-shard count with a positive parity count, where the first
    placed shard divides by zero.
- With no shards at all (both counts zero) the source does run. Every key
  is filed under an empty placement and neither accumulator changes. The
  model requires a positive data-shard count (`SimTypes.Runnable`), so this
  configuration is not modelled.
- The memory array adds the whole record size in MiB, while `MemUsed` adds
  the size divided by the data-shard count. The model follows the code.
- `MemUsed` is modelled per access (`Proxies.Place`). Its accumulated value
  is not related to the history of the trace.
- The timestamp string and the 15-minute timestamp of a record are carried
  but unused, as in the source.
