/**
 * A worked replay: one proxy of four lambdas, two data shards and one
 * parity shard, and two accesses of the same key in hours 0 and 1.
 */
module Scenario {
  import opened Uint64
  import opened SimTypes
  import opened Tally
  import opened Proxies
  import opened History
  import opened Replay

  /** Three hundred MiB, in bytes. */
  const SIZE: u64 := 300 * 1048576

  const OPTIONS: Options := Options(1, 4, 2, 2, 1)

  /** The first access, in hour 0, and the second, in hour 1. */
  const FIRST: Record := Record("k1", SIZE, "", 0, 0)
  const SECOND: Record := Record("k1", SIZE, "", 1, 4)

  /** Every key routes to the one proxy. */
  function ToFirstProxy(key: string): nat
  {
    0
  }

  /**
   * What the two records imply through the history functions: one key,
   * hit once, 300 MiB due, and each lambda listed for the key visited
   * twice, once in each hour, and charged 300 MiB once.
   */
  lemma TwoRecords(m: map<string, seq<nat>>)
    requires "k1" in m
    ensures Keys([FIRST, SECOND]) == {"k1"}
    ensures Hits([FIRST, SECOND], "k1") == 1 && LastSize([FIRST, SECOND], "k1") == SIZE
    ensures MemoryDue([FIRST, SECOND]) == 300
    ensures forall idx :: Visits([FIRST, SECOND], m, idx) == (if idx in m["k1"] then 2 else 0)
    ensures forall idx :: VisitsAt([FIRST, SECOND], m, idx, 0) == (if idx in m["k1"] then 1 else 0)
    ensures forall idx :: VisitsAt([FIRST, SECOND], m, idx, 1) == (if idx in m["k1"] then 1 else 0)
    ensures forall idx :: Charged([FIRST, SECOND], m, idx) == (if idx in m["k1"] then 300 else 0)
  {
    var one := [FIRST];
    var rs := [FIRST, SECOND];
    assert one == [] + [FIRST] && rs == one + [SECOND];
    KeysAppend([], FIRST);
    KeysAppend(one, SECOND);
    HistorySnoc([], FIRST, "k1");
    HistorySnoc(one, SECOND, "k1");
    assert MemoryMiB(SIZE) == 300;
    MemoryDueStep(rs, 0, false);
    MemoryDueStep(rs, 1, true);
    assert rs[..0] == [] && rs[..1] == one && rs[..2] == rs;
    forall idx
      ensures Visits(rs, m, idx) == (if idx in m["k1"] then 2 else 0)
      ensures VisitsAt(rs, m, idx, 0) == (if idx in m["k1"] then 1 else 0)
      ensures VisitsAt(rs, m, idx, 1) == (if idx in m["k1"] then 1 else 0)
      ensures Charged(rs, m, idx) == (if idx in m["k1"] then 300 else 0)
    {
      ChargesSnoc([], FIRST, m, idx);
      ChargesSnoc(one, SECOND, m, idx);
    }
  }

  /**
   * A consistent, tallied proxy that has replayed the two records holds
   * "k1" on three distinct lambdas, as an object of half the size with one
   * hit, and nothing on the other lambda.
   */
  lemma OneKeyPlaced(m: map<string, seq<nat>>, pool: seq<Lambda>)
    requires |pool| == 4 && "k1" in m
    requires Consistent(m, pool, 3)
    requires KnownOnlyHere(m, 0, ToFirstProxy, [FIRST, SECOND])
    requires Tallied(pool, 2, [FIRST, SECOND])
    ensures IsPlacement(m["k1"], 4, 3)
    ensures forall idx :: 0 <= idx < 4 ==>
      && (idx in m["k1"] ==> pool[idx].kvs == map["k1" := Object("k1", SIZE / 2, 1)])
      && (idx !in m["k1"] ==> pool[idx].kvs == map[])
  {
    TwoRecords(m);
    forall idx | 0 <= idx < 4
      ensures pool[idx].kvs.Keys == if idx in m["k1"] then {"k1"} else {}
    {
      forall key | key in pool[idx].kvs
        ensures key == "k1" && idx in m["k1"]
      {
        assert key in m;
      }
    }
  }

  /**
   * Replays the two records. The first access places "k1" on three
   * distinct lambdas; the second is a hit. Afterwards each of the three
   * holds an object of "k1" with half the size and one hit, has counted two
   * accesses, one in each hour, and was charged the whole 300 MiB once;
   * the fourth lambda holds nothing and counted nothing.
   */
  method TwoAccesses(perms: seq<seq<nat>>) returns (proxies: seq<Proxy>, reuseTimeline: array2<int>, memArr: array<int>)
    requires |perms| == 2 && IsPermutation(perms[0], 4) && IsPermutation(perms[1], 4)
    ensures |proxies| == 1 && "k1" in proxies[0].placement
    ensures proxies[0].pool.Length == 4 && reuseTimeline.Length0 == 4 == memArr.Length && reuseTimeline.Length1 == 2
    ensures var lanes := proxies[0].placement["k1"];
      && IsPlacement(lanes, 4, 3)
      && (forall idx :: 0 <= idx < 4 ==>
            && (idx in lanes ==> proxies[0].pool[idx].kvs == map["k1" := Object("k1", SIZE / 2, 1)])
            && (idx !in lanes ==> proxies[0].pool[idx].kvs == map[])
            && RowSums(Grid(reuseTimeline))[idx] == (if idx in lanes then 2 else 0)
            && reuseTimeline[idx, 0] == (if idx in lanes then 1 else 0)
            && reuseTimeline[idx, 1] == (if idx in lanes then 1 else 0)
            && memArr[idx] == (if idx in lanes then 300 else 0))
    ensures Total(Grid(reuseTimeline)) == 6 && Sum(memArr[..]) == 900
  {
    proxies, reuseTimeline, memArr := Run(OPTIONS, [FIRST, SECOND], ToFirstProxy, perms);
    ghost var ms := Placements(proxies);
    ghost var ls := Pools(proxies);
    assert [FIRST, SECOND][0].key in ms[0];
    TwoRecords(ms[0]);
    OneKeyPlaced(ms[0], ls[0]);
    forall idx | 0 <= idx < 4
      ensures RowSums(Grid(reuseTimeline))[idx] == Visits([FIRST, SECOND], ms[0], idx)
      ensures reuseTimeline[idx, 0] == VisitsAt([FIRST, SECOND], ms[0], idx, 0)
      ensures reuseTimeline[idx, 1] == VisitsAt([FIRST, SECOND], ms[0], idx, 1)
      ensures memArr[idx] == Charged([FIRST, SECOND], ms[0], idx)
    {
      assert FlatIndex(0, 4, idx) == idx;
      assert memArr[..][idx] == memArr[idx];
    }
  }
}
