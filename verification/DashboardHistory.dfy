/** The charts of the admin dashboard: one cursor sweeps sorted rows for all buckets, and computes what counting afresh would. */
module DashboardHistory {
  import opened Basics
  import opened Bytes

  datatype Snapshot = Snapshot(recordedAt: int, totalUsedBytes: nat)

  ghost predicate Sorted(times: seq<int>) {
    forall i, j :: 0 <= i < j < |times| ==> times[i] <= times[j]
  }

  // ------------------------------------------------------------- definitions

  /** How many timestamps are at or before t. */
  function CountAt(times: seq<int>, t: int): nat {
    if times == [] then 0 else CountAt(times[..|times| - 1], t) + if times[|times| - 1] <= t then 1 else 0
  }

  /** The bytes of the last snapshot at or before t, else the fallback. */
  function BytesAt(snapshots: seq<Snapshot>, t: int, fallback: nat): nat {
    if snapshots == [] then fallback
    else
      var last := snapshots[|snapshots| - 1];
      if last.recordedAt <= t then last.totalUsedBytes else BytesAt(snapshots[..|snapshots| - 1], t, fallback)
  }

  /** The latest clamped time among the buckets 0..i: how far the cursor has been pushed by then. */
  function Reached(buckets: seq<int>, now: int, i: nat): int
    requires i < |buckets|
  {
    if i == 0 then Min(buckets[0], now) else Max(Reached(buckets, now, i - 1), Min(buckets[i], now))
  }

  /** The bucket times do not go back once they are clamped to now. */
  ghost predicate Ordered(buckets: seq<int>, now: int) {
    forall i, j :: 0 <= i < j < |buckets| ==> Min(buckets[i], now) <= Min(buckets[j], now)
  }

  lemma {:induction false} ReachedOfOrdered(buckets: seq<int>, now: int, i: nat)
    requires Ordered(buckets, now) && i < |buckets|
    ensures Reached(buckets, now, i) == Min(buckets[i], now)
  {
    if i > 0 {
      ReachedOfOrdered(buckets, now, i - 1);
      assert Min(buckets[i - 1], now) <= Min(buckets[i], now);
    }
  }

  lemma {:induction false} ReachedGrows(buckets: seq<int>, now: int, i: nat, j: nat)
    requires i <= j < |buckets|
    ensures Reached(buckets, now, i) <= Reached(buckets, now, j) && Min(buckets[i], now) <= Reached(buckets, now, j)
  {
    if i < j {
      ReachedGrows(buckets, now, i, j - 1);
    } else if i > 0 {
      ReachedGrows(buckets, now, i - 1, i - 1);
    }
  }

  // ---------------------------------------------------------------- counting

  /** The cursor stands between the rows at or before t and those after it. */
  ghost predicate Splits(times: seq<int>, cursor: nat, t: int) {
    && cursor <= |times|
    && (forall k :: 0 <= k < cursor ==> times[k] <= t)
    && (forall k :: cursor <= k < |times| ==> times[k] > t)
  }

  lemma {:induction false} CursorIsCount(times: seq<int>, t: int, cursor: nat)
    requires Splits(times, cursor, t)
    ensures CountAt(times, t) == cursor
  {
    if times != [] {
      var n := |times| - 1;
      CursorIsCount(times[..n], t, if cursor == |times| then n else cursor);
    }
  }

  /** The inner loop: the cursor of the bucket before, or the start, is moved on to what bucket i reaches. */
  method Advance(times: seq<int>, buckets: seq<int>, now: int, i: nat, start: nat) returns (cursor: nat)
    requires Sorted(times) && i < |buckets|
    requires if i == 0 then start == 0 else Splits(times, start, Reached(buckets, now, i - 1))
    ensures Splits(times, cursor, Reached(buckets, now, i)) && cursor == CountAt(times, Reached(buckets, now, i))
  {
    var bucketTime := Min(buckets[i], now);
    cursor := start;
    while cursor < |times| && times[cursor] <= bucketTime
      invariant start <= cursor <= |times|
      invariant forall k :: start <= k < cursor ==> times[k] <= bucketTime
    {
      cursor := cursor + 1;
    }
    forall k | cursor <= k < |times|
      ensures times[k] > bucketTime
    {
      assert k == cursor || times[cursor] <= times[k];
    }
    if i > 0 {
      StillSplits(times, start, Reached(buckets, now, i - 1), cursor, bucketTime);
    }
    CursorIsCount(times, Reached(buckets, now, i), cursor);
  }

  /** The value of bucket i is the count at the latest time reached by then. */
  ghost predicate IsPoint(times: seq<int>, buckets: seq<int>, now: int, i: nat, value: nat)
    requires i < |buckets|
  {
    value == CountAt(times, Reached(buckets, now, i))
  }

  /** buildCumulativeHistory, for any bucket times: each value is the count at the latest time reached so far. */
  method BuildCumulativeHistory(times: seq<int>, buckets: seq<int>, now: int) returns (values: seq<nat>)
    requires Sorted(times)
    ensures |values| == |buckets|
    ensures forall i :: 0 <= i < |buckets| ==> IsPoint(times, buckets, now, i, values[i])
  {
    var cursor := 0;
    values := [];
    var i := 0;
    while i < |buckets|
      invariant i <= |buckets| && |values| == i
      invariant forall k :: 0 <= k < i ==> IsPoint(times, buckets, now, k, values[k])
      invariant if i == 0 then cursor == 0 else Splits(times, cursor, Reached(buckets, now, i - 1))
    {
      cursor := Advance(times, buckets, now, i, cursor);
      values := values + [cursor];
      i := i + 1;
    }
  }

  lemma StillSplits(times: seq<int>, before: nat, t: int, after: nat, bucketTime: int)
    requires Splits(times, before, t) && before <= after <= |times|
    requires forall k :: before <= k < after ==> times[k] <= bucketTime
    requires forall k :: after <= k < |times| ==> times[k] > bucketTime
    ensures Splits(times, after, Max(t, bucketTime))
  {
  }

  /** With ordered buckets, each point is the count of timestamps at or before its own clamped time. */
  method CumulativeHistory(times: seq<int>, buckets: seq<int>, now: int) returns (values: seq<nat>)
    requires Sorted(times) && Ordered(buckets, now)
    ensures |values| == |buckets|
    ensures forall i :: 0 <= i < |buckets| ==> values[i] == CountAt(times, Min(buckets[i], now))
  {
    values := BuildCumulativeHistory(times, buckets, now);
    forall i | 0 <= i < |buckets|
      ensures values[i] == CountAt(times, Min(buckets[i], now))
    {
      assert IsPoint(times, buckets, now, i, values[i]);
      ReachedOfOrdered(buckets, now, i);
    }
  }

  /** And order is what makes one pass sound: the two agree for all rows exactly if the clamped times never go back. */
  lemma OnePassIsSoundExactlyWhenOrdered(buckets: seq<int>, now: int)
    ensures Ordered(buckets, now) <==>
              forall times, i :: Sorted(times) && 0 <= i < |buckets| ==>
                CountAt(times, Reached(buckets, now, i)) == CountAt(times, Min(buckets[i], now))
  {
    if Ordered(buckets, now) {
      forall times, i | Sorted(times) && 0 <= i < |buckets|
        ensures CountAt(times, Reached(buckets, now, i)) == CountAt(times, Min(buckets[i], now))
      {
        ReachedOfOrdered(buckets, now, i);
      }
    } else {
      var i, j :| 0 <= i < j < |buckets| && Min(buckets[i], now) > Min(buckets[j], now);
      ReachedGrows(buckets, now, i, j);
      var times := [Min(buckets[i], now)];
      assert Sorted(times) && times[..0] == [];
      assert CountAt(times, Reached(buckets, now, j)) == 1 && CountAt(times, Min(buckets[j], now)) == 0;
    }
  }

  // ----------------------------------------------------------------- storage

  ghost predicate SortedSnapshots(snapshots: seq<Snapshot>) {
    forall i, j :: 0 <= i < j < |snapshots| ==> snapshots[i].recordedAt <= snapshots[j].recordedAt
  }

  lemma {:induction false} CursorIsLast(snapshots: seq<Snapshot>, t: int, fallback: nat, cursor: nat)
    requires cursor <= |snapshots| && (cursor > 0 ==> snapshots[cursor - 1].recordedAt <= t)
    requires forall k :: cursor <= k < |snapshots| ==> snapshots[k].recordedAt > t
    ensures BytesAt(snapshots, t, fallback) == if cursor == 0 then fallback else snapshots[cursor - 1].totalUsedBytes
  {
    if cursor < |snapshots| {
      CursorIsLast(snapshots[..|snapshots| - 1], t, fallback, cursor);
    }
  }

  /** mapStorageHistory with ordered buckets: each point is the last snapshot at or before its clamped time, else the fallback. */
  method MapStorageHistory(snapshots: seq<Snapshot>, buckets: seq<int>, fallback: nat, now: int) returns (values: seq<nat>)
    requires SortedSnapshots(snapshots) && Ordered(buckets, now)
    ensures |values| == |buckets|
    ensures forall i :: 0 <= i < |buckets| ==> values[i] == BytesAt(snapshots, Min(buckets[i], now), fallback)
  {
    var cursor := 0;
    var lastKnownBytes := fallback;
    values := [];
    var i := 0;
    while i < |buckets|
      invariant i <= |buckets| && |values| == i && cursor <= |snapshots|
      invariant lastKnownBytes == if cursor == 0 then fallback else snapshots[cursor - 1].totalUsedBytes
      invariant forall k :: 0 <= k < i ==> values[k] == BytesAt(snapshots, Min(buckets[k], now), fallback)
      invariant cursor > 0 ==> i > 0 && snapshots[cursor - 1].recordedAt <= Min(buckets[i - 1], now)
    {
      var effectiveTime := Min(buckets[i], now);
      assert i > 0 ==> Min(buckets[i - 1], now) <= effectiveTime;
      while cursor < |snapshots| && snapshots[cursor].recordedAt <= effectiveTime
        invariant cursor <= |snapshots|
        invariant lastKnownBytes == if cursor == 0 then fallback else snapshots[cursor - 1].totalUsedBytes
        invariant cursor > 0 ==> snapshots[cursor - 1].recordedAt <= effectiveTime
      {
        lastKnownBytes := snapshots[cursor].totalUsedBytes;
        cursor := cursor + 1;
      }
      forall k | cursor <= k < |snapshots|
        ensures snapshots[k].recordedAt > effectiveTime
      {
        assert k == cursor || snapshots[cursor].recordedAt <= snapshots[k].recordedAt;
      }
      CursorIsLast(snapshots, effectiveTime, fallback, cursor);
      values := values + [lastKnownBytes];
      i := i + 1;
    }
  }

  // ----------------------------------------------------------------- buckets

  const HOUR_MS: int := 60 * 60 * 1000
  const DAY_MS: int := 24 * HOUR_MS

  function Buckets24Hour(startOfDay: int): seq<int> {
    [startOfDay, startOfDay + 6 * HOUR_MS, startOfDay + 12 * HOUR_MS, startOfDay + 18 * HOUR_MS, startOfDay + 24 * HOUR_MS]
  }

  function Buckets7Day(endOfToday: int): seq<int> {
    seq(7, i => endOfToday - (6 - i) * DAY_MS)
  }

  function Buckets30Day(endOfToday: int): seq<int> {
    seq(7, i => endOfToday - 5 * (6 - i) * DAY_MS)
  }

  /** Math.round of span * index / (points - 1): halves are rounded up. */
  function RoundShare(span: nat, index: nat, steps: nat): nat
    requires steps > 0
  {
    (2 * span * index + steps) / (2 * steps)
  }

  /** buildTotalBuckets; the only bucket of one point is now, and the last one always is. */
  function BucketsTotal(firstDate: int, now: int, points: nat): seq<int> {
    var span := if now - firstDate > 0 then now - firstDate else 0;
    seq(points, i requires 0 <= i < points => if i == points - 1 then now else firstDate + RoundShare(span, i, points - 1))
  }

  lemma AscendingIsOrdered(buckets: seq<int>, now: int)
    requires Sorted(buckets)
    ensures Ordered(buckets, now)
  {
    forall i, j | 0 <= i < j < |buckets|
      ensures Min(buckets[i], now) <= Min(buckets[j], now)
    {
      assert buckets[i] <= buckets[j];
    }
  }

  lemma DayBucketsOrdered(time: int, now: int)
    ensures Ordered(Buckets24Hour(time), now) && Ordered(Buckets7Day(time), now) && Ordered(Buckets30Day(time), now)
  {
    AscendingIsOrdered(Buckets24Hour(time), now);
    AscendingIsOrdered(Buckets7Day(time), now);
    AscendingIsOrdered(Buckets30Day(time), now);
  }

  lemma MoreTimes(x: nat, i: nat, j: nat)
    requires i <= j
    ensures x * i <= x * j
  {
    assert x * j == x * i + x * (j - i);
  }

  lemma DivMonotone(a: nat, b: nat, d: nat)
    requires a <= b && d > 0
    ensures a / d <= b / d
  {
    var k := b / d - a / d;
    assert d * k == d * (b / d) - d * (a / d);
    assert a == d * (a / d) + a % d && b == d * (b / d) + b % d;
    MultipleGrows(d, k);
  }

  lemma ShareGrows(span: nat, i: nat, j: nat, steps: nat)
    requires i <= j <= steps && steps > 0
    ensures RoundShare(span, i, steps) <= RoundShare(span, j, steps) <= span
  {
    MoreTimes(2 * span, i, j);
    DivMonotone(2 * span * i + steps, 2 * span * j + steps, 2 * steps);
    MoreTimes(2 * span, j, steps);
    DivMonotone(2 * span * j + steps, 2 * span * steps + steps, 2 * steps);
    assert 2 * span * steps == 2 * steps * span;
    EuclideanUnique(2 * span * steps + steps, 2 * steps, span, steps);
  }

  /** Also when the first row lies in the future of `now`. */
  lemma TotalBucketsOrdered(firstDate: int, now: int, points: nat)
    ensures Ordered(BucketsTotal(firstDate, now, points), now)
  {
    var span := if now - firstDate > 0 then now - firstDate else 0;
    forall i, j | 0 <= i < j < points
      ensures Min(BucketsTotal(firstDate, now, points)[i], now) <= Min(BucketsTotal(firstDate, now, points)[j], now)
    {
      ShareGrows(span, i, j, points - 1);
    }
  }

  lemma RoundedShare(span: nat, i: nat, steps: nat)
    requires steps > 0
    ensures 2 * span * i - steps < 2 * steps * RoundShare(span, i, steps) <= 2 * span * i + steps
  {
    var n, d := 2 * span * i + steps, 2 * steps;
    assert n == d * (n / d) + n % d;
  }

  /** The points from the first row to now lie evenly, to the nearest millisecond, and the last of them is now. */
  lemma TotalBucketsSpread(firstDate: int, now: int, points: nat, i: nat)
    requires i < points
    ensures |BucketsTotal(firstDate, now, points)| == points
    ensures var bucket := BucketsTotal(firstDate, now, points)[i];
            var steps := points - 1;
            if i == steps then bucket == now
            else if now <= firstDate then bucket == firstDate
            else 2 * (now - firstDate) * i - steps < 2 * steps * (bucket - firstDate) <= 2 * (now - firstDate) * i + steps
  {
    if i < points - 1 {
      RoundedShare(if now - firstDate > 0 then now - firstDate else 0, i, points - 1);
      if now <= firstDate {
        RoundedNothing(points - 1, i);
      }
    }
  }

  lemma RoundedNothing(steps: nat, i: nat)
    requires steps > 0
    ensures RoundShare(0, i, steps) == 0
  {
    assert 2 * 0 * i == 0;
    EuclideanUnique(steps, 2 * steps, 0, steps);
  }
}
