/**
 * What a prefix of the trace implies about the simulation state: the keys
 * seen so far, how often each was hit, its latest size, and what each
 * lambda of a proxy has been charged in accesses and in memory.
 */
module History {
  import opened Uint64
  import opened SimTypes
  import opened Tally

  /** The keys that occur in `rs`. */
  function Keys(rs: seq<Record>): set<string>
  {
    set i | 0 <= i < |rs| :: rs[i].key
  }

  /** A record is a first sight when its key occurs in no earlier record. */
  predicate FirstSight(rs: seq<Record>, i: nat)
    requires i < |rs|
  {
    rs[i].key !in Keys(rs[..i])
  }

  /**
   * The MiB one shard of the trace's accesses charges to the memory array:
   * the record size in MiB of each record that first places its key, in an
   * hour up to 99.
   */
  function MemoryDue(rs: seq<Record>): int
  {
    if rs == [] then 0
    else
      var n := |rs| - 1;
      MemoryDue(rs[..n])
        + (if FirstSight(rs, n) && rs[n].timestampHr <= LAST_MEMORY_HOUR then MemoryMiB(rs[n].sz) else 0)
  }

  /** Records after hour 99 never charge memory. */
  lemma {:induction false} MemoryDueOutsideWindow(rs: seq<Record>)
    requires forall i :: 0 <= i < |rs| ==> rs[i].timestampHr > LAST_MEMORY_HOUR
    ensures MemoryDue(rs) == 0
  {
    if rs != [] {
      MemoryDueOutsideWindow(rs[..|rs| - 1]);
    }
  }

  /** Repeating an access of a known key charges no more memory. */
  lemma MemoryDueOfRepeat(rs: seq<Record>, r: Record)
    requires r.key in Keys(rs)
    ensures MemoryDue(rs + [r]) == MemoryDue(rs)
  {
    assert (rs + [r])[..|rs|] == rs;
  }

  /** Replaying only record sizes below 2^63 bytes never lowers a memory total. */
  lemma {:induction false} MemoryDueNonNegative(rs: seq<Record>)
    requires forall i :: 0 <= i < |rs| ==> rs[i].sz < HALF
    ensures MemoryDue(rs) >= 0
  {
    if rs != [] {
      MemoryDueNonNegative(rs[..|rs| - 1]);
    }
  }

  /** The keys of a trace one record longer. */
  lemma KeysAppend(rs: seq<Record>, r: Record)
    ensures Keys(rs + [r]) == Keys(rs) + {r.key}
  {
    var rs' := rs + [r];
    assert rs'[|rs|].key == r.key;
    forall key | key in Keys(rs)
      ensures key in Keys(rs')
    {
      var i :| 0 <= i < |rs| && rs[i].key == key;
      assert rs'[i].key == key;
    }
  }

  lemma PrefixSnoc(rs: seq<Record>, i: nat)
    requires i < |rs|
    ensures rs[..i] + [rs[i]] == rs[..i + 1]
  {
  }

  /** The memory one more record charges: its MiB if it is a first sight up to hour 99. */
  lemma MemoryDueStep(rs: seq<Record>, i: nat, known: bool)
    requires i < |rs|
    requires known <==> rs[i].key in Keys(rs[..i])
    ensures MemoryDue(rs[..i + 1]) == MemoryDue(rs[..i])
      + (if !known && rs[i].timestampHr <= LAST_MEMORY_HOUR then MemoryMiB(rs[i].sz) else 0)
  {
    assert rs[..i + 1][..i] == rs[..i];
  }

  /** Without its last record, `rs + [r]` is `rs`. */
  lemma DropLast(rs: seq<Record>, r: Record)
    ensures (rs + [r])[..|rs|] == rs
  {
  }

  /** How many records of `rs` are of `key`. */
  function Occurrences(rs: seq<Record>, key: string): nat
  {
    if rs == [] then 0
    else Occurrences(rs[..|rs| - 1], key) + (if rs[|rs| - 1].key == key then 1 else 0)
  }

  /** A key occurs in the trace exactly when it has been seen. */
  lemma {:induction false} OccurrencesPositive(rs: seq<Record>, key: string)
    ensures Occurrences(rs, key) > 0 <==> key in Keys(rs)
  {
    if rs != [] {
      var n := |rs| - 1;
      OccurrencesPositive(rs[..n], key);
      KeysAppend(rs[..n], rs[n]);
      assert rs[..n] + [rs[n]] == rs;
    }
  }

  /** How many records of `rs` are hits on `key`: every record of it but the first. */
  function Hits(rs: seq<Record>, key: string): nat
  {
    if rs == [] then 0
    else
      var n := |rs| - 1;
      Hits(rs[..n], key) + (if rs[n].key == key && key in Keys(rs[..n]) then 1 else 0)
  }

  /** A seen key was hit once for each record of it after the first; an unseen key never. */
  lemma {:induction false} HitsCount(rs: seq<Record>, key: string)
    ensures Hits(rs, key) == if key in Keys(rs) then Occurrences(rs, key) - 1 else 0
  {
    if rs != [] {
      var n := |rs| - 1;
      KeysAppend(rs[..n], rs[n]);
      assert rs[..n] + [rs[n]] == rs;
      OccurrencesPositive(rs[..n], key);
      HitsCount(rs[..n], key);
    }
  }

  /** The size of the latest record of `key` in `rs` (zero when there is none). */
  function LastSize(rs: seq<Record>, key: string): u64
  {
    if rs == [] then 0
    else if rs[|rs| - 1].key == key then rs[|rs| - 1].sz
    else LastSize(rs[..|rs| - 1], key)
  }

  /** One more record: of its own key, the hit count grows by one if the key was seen, and the latest size becomes its size; of every other key, neither changes. */
  lemma HistorySnoc(rs: seq<Record>, r: Record, key: string)
    ensures Hits(rs + [r], key) == Hits(rs, key) + (if r.key == key && key in Keys(rs) then 1 else 0)
    ensures LastSize(rs + [r], key) == if r.key == key then r.sz else LastSize(rs, key)
  {
    DropLast(rs, r);
  }

  /** `m` lists lambda `idx` for `key`. */
  predicate Lists(m: map<string, seq<nat>>, key: string, idx: nat)
  {
    key in m && idx in m[key]
  }

  /** How many records of `rs` have a key whose lambdas in `m` include `idx`. */
  function Visits(rs: seq<Record>, m: map<string, seq<nat>>, idx: nat): nat
  {
    if rs == [] then 0
    else
      var n := |rs| - 1;
      Visits(rs[..n], m, idx) + (if Lists(m, rs[n].key, idx) then 1 else 0)
  }

  /** How many records of `rs` in hour `h` have a key whose lambdas in `m` include `idx`. */
  function VisitsAt(rs: seq<Record>, m: map<string, seq<nat>>, idx: nat, h: nat): nat
  {
    if rs == [] then 0
    else
      var n := |rs| - 1;
      VisitsAt(rs[..n], m, idx, h) + (if Lists(m, rs[n].key, idx) && rs[n].timestampHr == h then 1 else 0)
  }

  /** The visits of lambda `idx` in each of the hours below `numHours`. */
  function HourCounts(rs: seq<Record>, m: map<string, seq<nat>>, idx: nat, numHours: nat): (counts: seq<int>)
    ensures |counts| == numHours
    ensures forall h :: 0 <= h < numHours ==> counts[h] == VisitsAt(rs, m, idx, h)
  {
    seq(numHours, h requires 0 <= h < numHours => VisitsAt(rs, m, idx, h))
  }

  /** When every record falls in an hour below `numHours`, a lambda's visits are its visits per hour summed. */
  lemma {:induction false} VisitsByHour(rs: seq<Record>, m: map<string, seq<nat>>, idx: nat, numHours: nat)
    requires forall i :: 0 <= i < |rs| ==> rs[i].timestampHr < numHours
    ensures Sum(HourCounts(rs, m, idx, numHours)) == Visits(rs, m, idx)
  {
    if rs == [] {
      SumOfZeros(HourCounts(rs, m, idx, numHours));
    } else {
      var n := |rs| - 1;
      var front := rs[..n];
      assert forall i :: 0 <= i < |front| ==> front[i] == rs[i];
      VisitsByHour(front, m, idx, numHours);
      var hours: set<nat> := if Lists(m, rs[n].key, idx) then {rs[n].timestampHr} else {};
      SumBumped(HourCounts(front, m, idx, numHours), HourCounts(rs, m, idx, numHours), hours, 1);
    }
  }

  /**
   * The MiB that the first sights up to hour 99 among `rs` charge to lambda
   * `idx`, when `m` lists that lambda for their key.
   */
  function Charged(rs: seq<Record>, m: map<string, seq<nat>>, idx: nat): int
  {
    if rs == [] then 0
    else
      var n := |rs| - 1;
      Charged(rs[..n], m, idx)
        + (if Lists(m, rs[n].key, idx) && FirstSight(rs, n) && rs[n].timestampHr <= LAST_MEMORY_HOUR
           then MemoryMiB(rs[n].sz) else 0)
  }

  /** `m` and `m'` know the same keys of `rs`, with the same lambdas. */
  predicate AgreeOn(rs: seq<Record>, m: map<string, seq<nat>>, m': map<string, seq<nat>>)
  {
    forall i :: 0 <= i < |rs| ==>
      (rs[i].key in m <==> rs[i].key in m') && (rs[i].key in m ==> m[rs[i].key] == m'[rs[i].key])
  }

  /** Filing an unseen key changes nothing for the keys of a trace. */
  lemma AgreeOnUpdate(rs: seq<Record>, m: map<string, seq<nat>>, key: string, v: seq<nat>)
    requires key !in Keys(rs)
    ensures AgreeOn(rs, m, m[key := v])
  {
    forall i | 0 <= i < |rs|
      ensures rs[i].key != key
    {
      assert rs[i].key in Keys(rs);
    }
  }

  /** Maps that agree on the keys of a trace count the same visits and charges for it. */
  lemma {:induction false} AgreeingMaps(rs: seq<Record>, m: map<string, seq<nat>>, m': map<string, seq<nat>>, idx: nat)
    requires AgreeOn(rs, m, m')
    ensures Visits(rs, m, idx) == Visits(rs, m', idx)
    ensures Charged(rs, m, idx) == Charged(rs, m', idx)
  {
    if rs != [] {
      var n := |rs| - 1;
      assert AgreeOn(rs[..n], m, m') by {
        forall i | 0 <= i < n
          ensures rs[..n][i] == rs[i]
        {
        }
      }
      AgreeingMaps(rs[..n], m, m', idx);
      assert rs[n].key in m ==> m[rs[n].key] == m'[rs[n].key];
    }
  }

  /** Maps that agree on the keys of a trace count the same visits for it in every hour. */
  lemma {:induction false} AgreeingMapsAt(rs: seq<Record>, m: map<string, seq<nat>>, m': map<string, seq<nat>>,
                                          idx: nat, h: nat)
    requires AgreeOn(rs, m, m')
    ensures VisitsAt(rs, m, idx, h) == VisitsAt(rs, m', idx, h)
  {
    if rs != [] {
      var n := |rs| - 1;
      assert AgreeOn(rs[..n], m, m') by {
        forall i | 0 <= i < n
          ensures rs[..n][i] == rs[i]
        {
        }
      }
      AgreeingMapsAt(rs[..n], m, m', idx, h);
      assert rs[n].key in m ==> m[rs[n].key] == m'[rs[n].key];
    }
  }

  /**
   * One more record visits lambda `idx`, in the record's hour, when `m`
   * lists it for the record's key, and charges it there when it is also a
   * first sight up to hour 99.
   */
  lemma ChargesSnoc(rs: seq<Record>, r: Record, m: map<string, seq<nat>>, idx: nat)
    ensures Visits(rs + [r], m, idx) == Visits(rs, m, idx) + (if Lists(m, r.key, idx) then 1 else 0)
    ensures VisitsAt(rs + [r], m, idx, r.timestampHr) == VisitsAt(rs, m, idx, r.timestampHr)
      + (if Lists(m, r.key, idx) then 1 else 0)
    ensures forall h :: h != r.timestampHr ==> VisitsAt(rs + [r], m, idx, h) == VisitsAt(rs, m, idx, h)
    ensures Charged(rs + [r], m, idx) == Charged(rs, m, idx)
      + (if Lists(m, r.key, idx) && r.key !in Keys(rs) && r.timestampHr <= LAST_MEMORY_HOUR
         then MemoryMiB(r.sz) else 0)
  {
    DropLast(rs, r);
  }
}
