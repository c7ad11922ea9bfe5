/**
 * The fresh-start partition of the backfill range into one-day chunks
 * (the do-while loop of `startBackfill`). Days are UTC days of epoch
 * milliseconds: `startOf('day')` rounds down to a multiple of a day and
 * `endOf('day')` is the last millisecond before the next midnight.
 */
module DayRanges {
  import opened Feed

  const DayMs: int := 86400000

  /** `moment(t).startOf('day')`. */
  function StartOfDay(t: int): int
  {
    t - t % DayMs
  }

  /** `moment(t).endOf('day')`. */
  function EndOfDay(t: int): int
  {
    StartOfDay(t) + DayMs - 1
  }

  predicate IsMidnight(t: int) {
    t % DayMs == 0
  }

  predicate SameDay(a: int, b: int) {
    StartOfDay(a) == StartOfDay(b)
  }

  /** The `[start, end]` pair handed to one backfill worker; both ends inclusive. */
  datatype TimeRange = TimeRange(start: int, end: int)

  /**
   * The ranges the loop pushes once its cursor is `cursor`: the body runs
   * at least once, and the cursor moves to the next midnight while it is
   * before `end`.
   */
  function Partition(cursor: int, end: int): (r: seq<TimeRange>)
    ensures |r| >= 1 && r[0] == TimeRange(cursor, Min(EndOfDay(cursor), end))
    decreases end - cursor
  {
    var range := TimeRange(cursor, Min(EndOfDay(cursor), end));
    var next := StartOfDay(cursor + DayMs);
    if next < end then [range] + Partition(next, end) else [range]
  }

  lemma DayFacts(t: int)
    ensures StartOfDay(t) <= t <= EndOfDay(t) < StartOfDay(t) + DayMs
    ensures IsMidnight(StartOfDay(t))
    ensures StartOfDay(t + DayMs) == StartOfDay(t) + DayMs
    ensures SameDay(t, EndOfDay(t))
  {
    assert (t + DayMs) % DayMs == t % DayMs;
    assert (StartOfDay(t) + DayMs - 1) % DayMs == DayMs - 1;
  }

  /** Each range starts at or after `lo` and runs to the end of its day or to `end`, whichever is first. */
  predicate CutAtDayOrEnd(r: seq<TimeRange>, lo: int, end: int) {
    forall i :: 0 <= i < |r| ==> r[i].end == Min(EndOfDay(r[i].start), end) && r[i].start >= lo
  }

  /** Every range after the first starts at a midnight before `end`, one millisecond after the previous one ends. */
  predicate Contiguous(r: seq<TimeRange>, end: int) {
    forall i :: 0 < i < |r| ==> IsMidnight(r[i].start) && r[i].start < end && r[i].start == r[i - 1].end + 1
  }

  /** Every range is non-empty and lies within `[start, end]` and within one day. */
  predicate WithinDays(r: seq<TimeRange>, start: int, end: int) {
    forall i :: 0 <= i < |r| ==> start <= r[i].start <= r[i].end <= end && SameDay(r[i].start, r[i].end)
  }

  predicate Disjoint(r: seq<TimeRange>) {
    forall i, j :: 0 <= i < j < |r| ==> r[i].end < r[j].start
  }

  /** A range runs from its start to the end of that day or to `end`, whichever is first. */
  lemma {:induction false} PartitionEnds(cursor: int, end: int)
    ensures CutAtDayOrEnd(Partition(cursor, end), cursor, end)
    decreases end - cursor
  {
    var next := StartOfDay(cursor + DayMs);
    DayFacts(cursor);
    if next < end {
      PartitionEnds(next, end);
      var r := Partition(cursor, end);
      var tail := Partition(next, end);
      forall i | 0 < i < |r|
        ensures r[i].end == Min(EndOfDay(r[i].start), end) && r[i].start >= cursor
      {
        assert r[i] == tail[i - 1];
      }
    }
  }

  /** Consecutive ranges touch, and every range after the first starts at a midnight. */
  lemma {:induction false} PartitionContiguous(cursor: int, end: int)
    ensures Contiguous(Partition(cursor, end), end)
    decreases end - cursor
  {
    var next := StartOfDay(cursor + DayMs);
    DayFacts(cursor);
    if next < end {
      PartitionContiguous(next, end);
      var r := Partition(cursor, end);
      var tail := Partition(next, end);
      DayFacts(next);
      forall i | 0 < i < |r|
        ensures IsMidnight(r[i].start) && r[i].start < end && r[i].start == r[i - 1].end + 1
      {
        if i == 1 {
          assert r[1] == TimeRange(next, Min(EndOfDay(next), end));
          assert r[0].end == EndOfDay(cursor);
        } else {
          assert r[i] == tail[i - 1] && r[i - 1] == tail[i - 2];
        }
      }
    }
  }

  /** An instant between the start and the end of some day lies in that day. */
  lemma InDay(s: int, t: int)
    requires StartOfDay(s) <= t <= EndOfDay(s)
    ensures SameDay(s, t)
  {
    var m := StartOfDay(s);
    var q := s / DayMs;
    assert m == q * DayMs;
    assert t == q * DayMs + (t - m);
    assert t % DayMs == t - m;
  }

  /** When the range is not inverted, every chunk is non-empty and lies within one day and the range. */
  lemma PartitionWithinDays(start: int, end: int)
    requires start <= end
    ensures WithinDays(Partition(start, end), start, end)
  {
    var r := Partition(start, end);
    PartitionEnds(start, end);
    PartitionContiguous(start, end);
    forall i | 0 <= i < |r|
      ensures start <= r[i].start <= r[i].end <= end && SameDay(r[i].start, r[i].end)
    {
      assert r[i].end == Min(EndOfDay(r[i].start), end);
      assert i > 0 ==> r[i].start < end;
      DayFacts(r[i].start);
      InDay(r[i].start, r[i].end);
    }
  }

  /** Chunks are strictly ordered and pairwise disjoint. */
  lemma PartitionDisjoint(start: int, end: int)
    requires start <= end
    ensures Disjoint(Partition(start, end))
  {
    var r := Partition(start, end);
    PartitionWithinDays(start, end);
    PartitionContiguous(start, end);
    forall i, j | 0 <= i < j < |r|
      ensures r[i].end < r[j].start
    {
      var k := i + 1;
      assert 0 < k < |r|;
      assert r[k].start == r[k - 1].end + 1;
      while k < j
        invariant i + 1 <= k <= j
        invariant r[i].end < r[k].start
      {
        assert r[k].start <= r[k].end;
        assert r[k + 1].start == r[k].end + 1;
        k := k + 1;
      }
    }
  }

  predicate Covered(r: seq<TimeRange>, t: int) {
    exists i :: 0 <= i < |r| && r[i].start <= t <= r[i].end
  }

  /** Every millisecond of `[start, end)` lies in some chunk. */
  lemma {:induction false} PartitionCovers(start: int, end: int, t: int)
    requires start <= t < end
    ensures Covered(Partition(start, end), t)
    decreases end - start
  {
    var r := Partition(start, end);
    var next := StartOfDay(start + DayMs);
    DayFacts(start);
    if t <= r[0].end {
      assert 0 < |r| && r[0].start <= t <= r[0].end;
    } else {
      // past the first chunk, which ends just before the next midnight
      assert next < end && t >= next;
      PartitionCovers(next, end, t);
      var tail := Partition(next, end);
      var i :| 0 <= i < |tail| && tail[i].start <= t <= tail[i].end;
      assert r[i + 1] == tail[i];
      assert r[i + 1].start <= t <= r[i + 1].end;
    }
  }

  /**
   * The last chunk ends at `end`, except when `end` falls exactly on a
   * midnight after the start: then the chunk of the day before ends one
   * millisecond earlier and `end` itself belongs to no chunk.
   */
  lemma {:induction false} PartitionLastEnd(start: int, end: int)
    requires start <= end
    ensures var r := Partition(start, end);
      var last := r[|r| - 1];
      if IsMidnight(end) && start < end then last.end == end - 1 else last.end == end
    decreases end - start
  {
    var next := StartOfDay(start + DayMs);
    DayFacts(start);
    if next < end {
      PartitionLastEnd(next, end);
      DayFacts(next);
    } else if IsMidnight(end) && start < end {
      assert next == end by {
        assert StartOfDay(start) < end <= next;
        assert next - end < DayMs;
        assert (next - end) % DayMs == 0;
      }
    } else if start < end {
      assert end < next;
    }
  }

  /** A range that starts and ends in the same instant still makes one (single-instant) chunk. */
  lemma PartitionOfInstant(t: int)
    ensures Partition(t, t) == [TimeRange(t, t)]
  {
    DayFacts(t);
  }

  /** Two and a half days from a midnight give two whole days and a half day. */
  lemma PartitionExample()
    ensures var d := 19000 * DayMs;
      Partition(d, d + 2 * DayMs + DayMs / 2) ==
        [TimeRange(d, d + DayMs - 1), TimeRange(d + DayMs, d + 2 * DayMs - 1), TimeRange(d + 2 * DayMs, d + 2 * DayMs + DayMs / 2)]
  {
    var d := 19000 * DayMs;
    var e := d + 2 * DayMs + DayMs / 2;
    calc {
      Partition(d, e);
      [TimeRange(d, d + DayMs - 1)] + Partition(d + DayMs, e);
      [TimeRange(d, d + DayMs - 1), TimeRange(d + DayMs, d + 2 * DayMs - 1)] + Partition(d + 2 * DayMs, e);
    }
  }
}
