/**
 * The upkeep worker polls the tail of a feed from a moving watermark
 * (UpkeepWorker.ts). One iteration is one call of `start` up to its
 * recursive call: it drains the pages above a lower bound fixed at the
 * start of the iteration, moves the watermark as pages arrive, overrides it
 * with the last item seen once the drain ends, and decides whether to idle.
 */
module UpkeepWorkers {
  import opened Feed

  /**
   * Where the assignment of `lastTimestamp` stands relative to the commit:
   * before it, as the code is written, or after it, the correction described
   * in the README's findings.
   */
  datatype Order = AsWritten | CommitFirst

  /** The locals of one iteration (cursor, last timestamp, last item count) and the worker's fields. */
  datatype Pass = Pass(
    continuation: Option<Token>,
    lastTimestamp: Option<int>,
    lastItemCount: nat,
    watermark: int,
    stats: Stats,
    sent: seq<FetchParams>,
    commits: seq<seq<Item>>)

  /** The worker's own state: the watermark `startTimestamp`, the counters and the calls made. */
  datatype WorkerView = WorkerView(startTimestamp: int, stats: Stats, sent: seq<FetchParams>, commits: seq<seq<Item>>)

  /** The drain's last pass, whether it saw an absent cursor, and how many outcomes it used. */
  datatype Polled = Polled(pass: Pass, ended: bool, used: nat)

  /** One iteration's result: the worker afterwards, whether the drain ended, whether it then sleeps. */
  datatype Iterated = Iterated(view: WorkerView, ended: bool, idle: bool, used: nat)

  /** Every request of an iteration: the captured lower bound in seconds, no upper bound, limit 1000, no status. */
  function Request(startFrom: int, c: Option<Token>): FetchParams
  {
    FetchParams(Some(ToSeconds(startFrom)), None, CursorParam(c), PageLimit, None)
  }

  /** The locals an iteration starts with. */
  function Begin(w: WorkerView): Pass
  {
    Pass(None, None, 0, w.startTimestamp, w.stats, w.sent, w.commits)
  }

  /**
   * One pass of the loop body. A rejected commit is caught like a rejected
   * fetch: it counts an error and leaves cursor, watermark and item count;
   * written as it is, the pass has already set `lastTimestamp` by then.
   */
  function Body(order: Order, startFrom: int, s: Pass, a: Attempt): Pass
  {
    var sent := s.sent + [Request(startFrom, s.continuation)];
    var st := s.stats;
    match a
    case FetchFailed =>
      s.(sent := sent, stats := st.(errors := st.errors + 1))
    case ExtractFailed =>
      s.(sent := sent, stats := st.(requests := st.requests + 1, errors := st.errors + 1))
    case Page(items, next, ok) =>
      var counted := st.(requests := st.requests + 1, fetched := st.fetched + |items|);
      var last := if |items| > 0 then Some(items[|items| - 1].updatedAt) else None;
      if |items| > 0 && !ok then
        s.(sent := sent,
           stats := counted.(errors := st.errors + 1),
           commits := s.commits + [items],
           lastTimestamp := if order == AsWritten then last else s.lastTimestamp)
      else if |items| > 0 then
        Pass(next, last, |items|, items[0].updatedAt,
             counted.(committed := st.committed + |items|), sent, s.commits + [items])
      else
        Pass(next, None, 0, s.watermark, counted, sent, s.commits)
  }

  /** The do…while loop of one iteration, from the top of its body. */
  function Drain(order: Order, startFrom: int, s: Pass, attempts: seq<Attempt>): (r: Polled)
    ensures r.used <= |attempts|
    ensures r.used == 0 <==> attempts == []
    ensures r.used == 0 ==> r.pass == s
    ensures !r.ended ==> r.used == |attempts|
    ensures r.ended ==> !Truthy(r.pass.continuation)
    ensures !r.ended && r.used > 0 ==> Truthy(r.pass.continuation)
    decreases |attempts|
  {
    if attempts == [] then Polled(s, false, 0)
    else
      var q := Body(order, startFrom, s, attempts[0]);
      if !Truthy(q.continuation) then Polled(q, true, 1)
      else
        var d := Drain(order, startFrom, q, attempts[1..]);
        Polled(d.pass, d.ended, d.used + 1)
  }

  function Shift(d: Polled, k: nat): Polled
  {
    d.(used := d.used + k)
  }

  /** One iteration of `start`: the drain, then the override by the last item seen and the idle decision. */
  function Iteration(order: Order, w: WorkerView, attempts: seq<Attempt>): Iterated
  {
    var d := Drain(order, w.startTimestamp, Begin(w), attempts);
    var p := d.pass;
    var mark := if d.ended && p.lastTimestamp.Some? then p.lastTimestamp.value else p.watermark;
    Iterated(WorkerView(mark, p.stats, p.sent, p.commits), d.ended, d.ended && p.lastItemCount < PageLimit, d.used)
  }

  // Reference accounting, one outcome at a time, independent of the loop.

  /** The body ran to its end: a page that was empty or whose commit resolved. */
  predicate Completes(a: Attempt) {
    a.Page? && (|a.items| == 0 || a.commitOk)
  }

  /** The last item's `updatedAt` of a batch, or null for an empty one. */
  function LastOf(items: seq<Item>): Option<int>
  {
    if |items| > 0 then Some(items[|items| - 1].updatedAt) else None
  }

  /** Whether a pass sets `lastTimestamp`: every extracted page as written, every completed page once corrected. */
  predicate SetsLast(order: Order, a: Attempt) {
    a.Page? && (order == AsWritten || Completes(a))
  }

  // The effect of one outcome on each part of the state.

  function ErrorOf(a: Attempt): nat { if Completes(a) then 0 else 1 }
  function CommittedOf(a: Attempt): nat { if Completes(a) then |a.items| else 0 }
  function BatchOf(a: Attempt): seq<seq<Item>> { if a.Page? && |a.items| > 0 then [a.items] else [] }
  function NextCursor(c: Option<Token>, a: Attempt): Option<Token> { if Completes(a) then a.next else c }
  function NextMark(w: int, a: Attempt): int { if Completes(a) && |a.items| > 0 then a.items[0].updatedAt else w }
  function NextCount(n: nat, a: Attempt): nat { if Completes(a) then |a.items| else n }
  function NextLast(order: Order, t: Option<int>, a: Attempt): Option<int> { if SetsLast(order, a) then LastOf(a.items) else t }

  /** Outcomes that counted as an error: rejected fetches, extracts and commits. */
  function Errors(attempts: seq<Attempt>): nat
  {
    if attempts == [] then 0 else ErrorOf(attempts[0]) + Errors(attempts[1..])
  }

  /** Items of the non-empty pages whose commit resolved. */
  function Committed(attempts: seq<Attempt>): nat
  {
    if attempts == [] then 0 else CommittedOf(attempts[0]) + Committed(attempts[1..])
  }

  /** The batches handed to commit: exactly the non-empty ones, in page order. */
  function Batches(attempts: seq<Attempt>): seq<seq<Item>>
  {
    if attempts == [] then [] else BatchOf(attempts[0]) + Batches(attempts[1..])
  }

  /** The in-iteration cursor: moved by every body that ran to its end. */
  function CursorAfter(c: Option<Token>, attempts: seq<Attempt>): Option<Token>
    decreases |attempts|
  {
    if attempts == [] then c else CursorAfter(NextCursor(c, attempts[0]), attempts[1..])
  }

  /** The watermark during the drain: the first item of each completed non-empty page. */
  function MarkAfter(w: int, attempts: seq<Attempt>): int
    decreases |attempts|
  {
    if attempts == [] then w else MarkAfter(NextMark(w, attempts[0]), attempts[1..])
  }

  /** The item count of the last completed page. */
  function CountAfter(n: nat, attempts: seq<Attempt>): nat
    decreases |attempts|
  {
    if attempts == [] then n else CountAfter(NextCount(n, attempts[0]), attempts[1..])
  }

  /** `lastTimestamp` after some outcomes: the last item of the last page that set it, or null if that page was empty. */
  function LastAfter(order: Order, t: Option<int>, attempts: seq<Attempt>): Option<int>
    decreases |attempts|
  {
    if attempts == [] then t else LastAfter(order, NextLast(order, t, attempts[0]), attempts[1..])
  }

  /** One pass, part by part. */
  lemma BodyParts(order: Order, startFrom: int, s: Pass, a: Attempt)
    ensures var q := Body(order, startFrom, s, a);
            && q.stats == Stats(s.stats.fetched + (if a.Page? then |a.items| else 0),
                                s.stats.committed + CommittedOf(a),
                                s.stats.requests + (if a.FetchFailed? then 0 else 1),
                                s.stats.errors + ErrorOf(a))
            && q.sent == s.sent + [Request(startFrom, s.continuation)]
            && q.commits == s.commits + BatchOf(a)
            && q.continuation == NextCursor(s.continuation, a)
            && q.watermark == NextMark(s.watermark, a)
            && q.lastItemCount == NextCount(s.lastItemCount, a)
            && q.lastTimestamp == NextLast(order, s.lastTimestamp, a)
  {
  }

  /**
   * Counters after a drain, each given by its own one-outcome-at-a-time
   * definition: every request that came back adds one to `requests`, every
   * extracted batch its length to `fetched`, every rejected fetch, extract or
   * commit one to `errors`.
   */
  lemma {:induction false} DrainCounts(order: Order, startFrom: int, s: Pass, attempts: seq<Attempt>)
    ensures var r := Drain(order, startFrom, s, attempts);
            var done := attempts[..r.used];
            && r.pass.stats.requests == s.stats.requests + Requests(done)
            && r.pass.stats.fetched == s.stats.fetched + Fetched(done)
            && r.pass.stats.errors == s.stats.errors + Errors(done)
    decreases |attempts|
  {
    if attempts != [] {
      var q := Body(order, startFrom, s, attempts[0]);
      BodyParts(order, startFrom, s, attempts[0]);
      if !Truthy(q.continuation) {
        assert attempts[..1] == [attempts[0]];
        assert attempts[..1][1..] == [];
      } else {
        DrainCounts(order, startFrom, q, attempts[1..]);
        var d := Drain(order, startFrom, q, attempts[1..]);
        assert attempts[..d.used + 1][0] == attempts[0];
        assert attempts[..d.used + 1][1..] == attempts[1..][..d.used];
      }
    }
  }

  /**
   * Commits after a drain: commit runs only for non-empty batches, each once,
   * in page order, and `committed` grows by those whose commit resolved.
   */
  lemma {:induction false} DrainCommits(order: Order, startFrom: int, s: Pass, attempts: seq<Attempt>)
    ensures var r := Drain(order, startFrom, s, attempts);
            var done := attempts[..r.used];
            && r.pass.stats.committed == s.stats.committed + Committed(done)
            && r.pass.commits == s.commits + Batches(done)
    decreases |attempts|
  {
    if attempts != [] {
      var q := Body(order, startFrom, s, attempts[0]);
      BodyParts(order, startFrom, s, attempts[0]);
      if !Truthy(q.continuation) {
        assert attempts[..1] == [attempts[0]];
        assert attempts[..1][1..] == [];
      } else {
        DrainCommits(order, startFrom, q, attempts[1..]);
        var d := Drain(order, startFrom, q, attempts[1..]);
        assert attempts[..d.used + 1][0] == attempts[0];
        assert attempts[..d.used + 1][1..] == attempts[1..][..d.used];
      }
    }
  }

  /**
   * The loop's locals and the watermark after a drain: an error leaves
   * cursor, watermark and item count as they were; a completed page moves the
   * cursor to its continuation, the watermark to its first item if it has one,
   * and the count to its length.
   */
  lemma {:induction false} DrainLocals(order: Order, startFrom: int, s: Pass, attempts: seq<Attempt>)
    ensures var r := Drain(order, startFrom, s, attempts);
            var done := attempts[..r.used];
            && r.pass.continuation == CursorAfter(s.continuation, done)
            && r.pass.watermark == MarkAfter(s.watermark, done)
            && r.pass.lastItemCount == CountAfter(s.lastItemCount, done)
            && r.pass.lastTimestamp == LastAfter(order, s.lastTimestamp, done)
    decreases |attempts|
  {
    if attempts != [] {
      var q := Body(order, startFrom, s, attempts[0]);
      BodyParts(order, startFrom, s, attempts[0]);
      if !Truthy(q.continuation) {
        assert attempts[..1] == [attempts[0]];
        assert attempts[..1][1..] == [];
      } else {
        DrainLocals(order, startFrom, q, attempts[1..]);
        var d := Drain(order, startFrom, q, attempts[1..]);
        assert attempts[..d.used + 1][0] == attempts[0];
        assert attempts[..d.used + 1][1..] == attempts[1..][..d.used];
      }
    }
  }

  /**
   * Every request of a drain uses the lower bound captured for the iteration,
   * and the i-th carries the cursor the completed pages before it left.
   */
  lemma {:induction false} DrainRequests(order: Order, startFrom: int, s: Pass, attempts: seq<Attempt>)
    ensures var r := Drain(order, startFrom, s, attempts);
            && |r.pass.sent| == |s.sent| + r.used
            && r.pass.sent[..|s.sent|] == s.sent
            && forall i :: 0 <= i < r.used ==>
                 r.pass.sent[|s.sent| + i] == Request(startFrom, CursorAfter(s.continuation, attempts[..i]))
    decreases |attempts|
  {
    if attempts != [] {
      var q := Body(order, startFrom, s, attempts[0]);
      BodyParts(order, startFrom, s, attempts[0]);
      assert attempts[..0] == [];
      if Truthy(q.continuation) {
        DrainRequests(order, startFrom, q, attempts[1..]);
        var r := Drain(order, startFrom, s, attempts);
        var d := Drain(order, startFrom, q, attempts[1..]);
        assert q.continuation == CursorAfter(s.continuation, attempts[..1]);
        forall i | 0 <= i < r.used
          ensures r.pass.sent[|s.sent| + i] == Request(startFrom, CursorAfter(s.continuation, attempts[..i]))
        {
          if i > 0 {
            assert attempts[..i][0] == attempts[0];
            assert attempts[..i][1..] == attempts[1..][..i - 1];
            assert r.pass.sent[|s.sent| + i] == d.pass.sent[|q.sent| + (i - 1)];
          }
        }
      }
    }
  }

  /** The drain ends exactly when the cursor is absent: it was present after every pass but the last. */
  lemma {:induction false} DrainStopsAtAbsentCursor(order: Order, startFrom: int, s: Pass, attempts: seq<Attempt>)
    ensures var r := Drain(order, startFrom, s, attempts);
            && (forall j :: 0 < j < r.used ==> Truthy(CursorAfter(s.continuation, attempts[..j])))
            && (r.ended <==> r.used > 0 && !Truthy(CursorAfter(s.continuation, attempts[..r.used])))
    decreases |attempts|
  {
    if attempts != [] {
      var q := Body(order, startFrom, s, attempts[0]);
      BodyParts(order, startFrom, s, attempts[0]);
      var r := Drain(order, startFrom, s, attempts);
      DrainLocals(order, startFrom, s, attempts);
      if Truthy(q.continuation) {
        DrainStopsAtAbsentCursor(order, startFrom, q, attempts[1..]);
        assert q.continuation == CursorAfter(s.continuation, attempts[..1]);
        forall j | 0 < j < r.used
          ensures Truthy(CursorAfter(s.continuation, attempts[..j]))
        {
          if j > 1 {
            assert attempts[..j][0] == attempts[0];
            assert attempts[..j][1..] == attempts[1..][..j - 1];
            assert Truthy(CursorAfter(q.continuation, attempts[1..][..j - 1]));
          }
        }
      }
    }
  }

  /**
   * One iteration as a whole: the continuation starts out null and every
   * request uses the watermark captured at the start (no upper bound, limit
   * 1000); at the end the watermark is the last item of the last page that set
   * `lastTimestamp` if there is one, and otherwise the first item of the last
   * completed non-empty page; the worker idles iff the last completed page held
   * fewer than 1000 items.
   */
  lemma IterationOutcome(order: Order, w: WorkerView, attempts: seq<Attempt>)
    ensures var r := Iteration(order, w, attempts);
            var done := attempts[..r.used];
            var last := LastAfter(order, None, done);
            && |r.view.sent| == |w.sent| + r.used
            && (forall i :: |w.sent| <= i < |r.view.sent| ==>
                  r.view.sent[i] == Request(w.startTimestamp, CursorAfter(None, attempts[..i - |w.sent|])))
            && (r.ended ==> r.view.startTimestamp == (if last.Some? then last.value else MarkAfter(w.startTimestamp, done)))
            && (!r.ended ==> r.view.startTimestamp == MarkAfter(w.startTimestamp, done))
            && (r.idle <==> r.ended && CountAfter(0, done) < 1000)
            && r.view.stats.committed == w.stats.committed + Committed(done)
            && r.view.commits == w.commits + Batches(done)
  {
    var d := Drain(order, w.startTimestamp, Begin(w), attempts);
    DrainCounts(order, w.startTimestamp, Begin(w), attempts);
    DrainCommits(order, w.startTimestamp, Begin(w), attempts);
    DrainLocals(order, w.startTimestamp, Begin(w), attempts);
    DrainRequests(order, w.startTimestamp, Begin(w), attempts);
    var r := Iteration(order, w, attempts);
    forall i | |w.sent| <= i < |r.view.sent|
      ensures r.view.sent[i] == Request(w.startTimestamp, CursorAfter(None, attempts[..i - |w.sent|]))
    {
      var k := i - |w.sent|;
      assert r.view.sent[|w.sent| + k] == Request(w.startTimestamp, CursorAfter(None, attempts[..k]));
    }
  }

  /** All items of all pages are at or above `floor`. */
  ghost predicate ItemsAtLeast(attempts: seq<Attempt>, floor: int) {
    forall i, j :: 0 <= i < |attempts| && attempts[i].Page? && 0 <= j < |attempts[i].items| ==>
      attempts[i].items[j].updatedAt >= floor
  }

  lemma {:induction false} MarkAfterAtLeast(w: int, attempts: seq<Attempt>, floor: int)
    requires ItemsAtLeast(attempts, floor)
    ensures MarkAfter(w, attempts) >= Min(w, floor)
    decreases |attempts|
  {
    if attempts != [] {
      var a := attempts[0];
      var w' := if Completes(a) && |a.items| > 0 then a.items[0].updatedAt else w;
      assert w' >= Min(w, floor);
      assert ItemsAtLeast(attempts[1..], floor) by {
        forall i, j | 0 <= i < |attempts[1..]| && attempts[1..][i].Page? && 0 <= j < |attempts[1..][i].items|
          ensures attempts[1..][i].items[j].updatedAt >= floor
        {
          assert attempts[1..][i] == attempts[i + 1];
        }
      }
      MarkAfterAtLeast(w', attempts[1..], floor);
    }
  }

  lemma {:induction false} LastAfterAtLeast(order: Order, t: Option<int>, attempts: seq<Attempt>, floor: int)
    requires ItemsAtLeast(attempts, floor)
    requires t.Some? ==> t.value >= floor
    ensures var e := LastAfter(order, t, attempts); e.Some? ==> e.value >= floor
    decreases |attempts|
  {
    if attempts != [] {
      var a := attempts[0];
      var t' := if SetsLast(order, a) then (if |a.items| > 0 then Some(a.items[|a.items| - 1].updatedAt) else None) else t;
      assert ItemsAtLeast(attempts[1..], floor) by {
        forall i, j | 0 <= i < |attempts[1..]| && attempts[1..][i].Page? && 0 <= j < |attempts[1..][i].items|
          ensures attempts[1..][i].items[j].updatedAt >= floor
        {
          assert attempts[1..][i] == attempts[i + 1];
        }
      }
      LastAfterAtLeast(order, t', attempts[1..], floor);
    }
  }

  /**
   * If every item an iteration receives is at or above `floor`, the watermark
   * ends at or above min(watermark, floor). With `floor` the watermark itself
   * (pages never older than it) the watermark never decreases; with the
   * watermark rounded down to its second, as the request sends it, it falls by
   * less than one second.
   */
  lemma WatermarkFloor(order: Order, w: WorkerView, attempts: seq<Attempt>, floor: int)
    requires ItemsAtLeast(attempts, floor)
    ensures Iteration(order, w, attempts).view.startTimestamp >= Min(w.startTimestamp, floor)
  {
    var r := Iteration(order, w, attempts);
    var done := attempts[..r.used];
    IterationOutcome(order, w, attempts);
    assert ItemsAtLeast(done, floor) by {
      forall i, j | 0 <= i < |done| && done[i].Page? && 0 <= j < |done[i].items|
        ensures done[i].items[j].updatedAt >= floor
      {
        assert done[i] == attempts[i];
      }
    }
    MarkAfterAtLeast(w.startTimestamp, done, floor);
    LastAfterAtLeast(order, None, done, floor);
  }

  /** The watermark never decreases across an iteration whose pages hold nothing older than it. */
  lemma WatermarkMonotone(order: Order, w: WorkerView, attempts: seq<Attempt>)
    requires ItemsAtLeast(attempts, w.startTimestamp)
    ensures Iteration(order, w, attempts).view.startTimestamp >= w.startTimestamp
  {
    WatermarkFloor(order, w, attempts, w.startTimestamp);
  }

  /**
   * As written, the watermark can move past a batch that never reached
   * storage: the first page of an iteration holds items at 5 s and 9 s and its
   * commit rejects; the drain ends (the cursor is still null), the watermark
   * becomes 9 s although nothing was committed, and the next iteration asks
   * only for items from second 9 on, so the item at 5 s is not asked for again.
   */
  lemma WatermarkPassesFailedCommit()
    ensures var w := WorkerView(0, NoStats, [], []);
            var page := Page([Item("a", 5000), Item("b", 9000)], None, false);
            var r := Iteration(AsWritten, w, [page]);
            && r.ended
            && r.view.stats.committed == 0 && r.view.stats.errors == 1
            && r.view.startTimestamp == 9000
            && ToSeconds(5000) < ToSeconds(r.view.startTimestamp)
  {
  }

  /** Once corrected, `lastTimestamp` is read only from completed pages. */
  lemma {:induction false} CorrectedLastIsCommitted(t: Option<int>, attempts: seq<Attempt>)
    ensures var e := LastAfter(CommitFirst, t, attempts);
            e == t || e.None? ||
            exists i :: 0 <= i < |attempts| && Completes(attempts[i]) && |attempts[i].items| > 0
                       && e.value == attempts[i].items[|attempts[i].items| - 1].updatedAt
    decreases |attempts|
  {
    if attempts != [] {
      var a := attempts[0];
      var t' := if SetsLast(CommitFirst, a) then (if |a.items| > 0 then Some(a.items[|a.items| - 1].updatedAt) else None) else t;
      CorrectedLastIsCommitted(t', attempts[1..]);
      var e := LastAfter(CommitFirst, t, attempts);
      if e != t' && e.Some? {
        var i :| 0 <= i < |attempts[1..]| && Completes(attempts[1..][i]) && |attempts[1..][i].items| > 0
                 && e.value == attempts[1..][i].items[|attempts[1..][i].items| - 1].updatedAt;
        assert attempts[i + 1] == attempts[1..][i];
      }
    }
  }

  /** The watermark during a drain is its initial value or the first item of a completed page. */
  lemma {:induction false} MarkIsCommitted(w: int, attempts: seq<Attempt>)
    ensures var e := MarkAfter(w, attempts);
            e == w ||
            exists i :: 0 <= i < |attempts| && Completes(attempts[i]) && |attempts[i].items| > 0
                       && e == attempts[i].items[0].updatedAt
    decreases |attempts|
  {
    if attempts != [] {
      var a := attempts[0];
      var w' := if Completes(a) && |a.items| > 0 then a.items[0].updatedAt else w;
      MarkIsCommitted(w', attempts[1..]);
      var e := MarkAfter(w, attempts);
      if e != w' {
        var i :| 0 <= i < |attempts[1..]| && Completes(attempts[1..][i]) && |attempts[1..][i].items| > 0
                 && e == attempts[1..][i].items[0].updatedAt;
        assert attempts[i + 1] == attempts[1..][i];
      }
    }
  }

  /**
   * With `lastTimestamp` assigned after the commit, an iteration leaves the
   * watermark where it was or at the first or last item of a batch whose
   * commit resolved.
   */
  lemma CorrectedWatermarkIsCommitted(w: WorkerView, attempts: seq<Attempt>)
    ensures var r := Iteration(CommitFirst, w, attempts);
            var e := r.view.startTimestamp;
            e == w.startTimestamp ||
            exists i :: 0 <= i < |attempts| && Completes(attempts[i]) && |attempts[i].items| > 0
                       && (e == attempts[i].items[0].updatedAt || e == attempts[i].items[|attempts[i].items| - 1].updatedAt)
  {
    var r := Iteration(CommitFirst, w, attempts);
    var done := attempts[..r.used];
    IterationOutcome(CommitFirst, w, attempts);
    MarkIsCommitted(w.startTimestamp, done);
    CorrectedLastIsCommitted(None, done);
    var e := r.view.startTimestamp;
    if e != w.startTimestamp {
      var last := LastAfter(CommitFirst, None, done);
      if r.ended && last.Some? {
        var i :| 0 <= i < |done| && Completes(done[i]) && |done[i].items| > 0
                 && last.value == done[i].items[|done[i].items| - 1].updatedAt;
        assert done[i] == attempts[i];
      } else {
        var i :| 0 <= i < |done| && Completes(done[i]) && |done[i].items| > 0 && e == done[i].items[0].updatedAt;
        assert done[i] == attempts[i];
      }
    }
  }

  class UpkeepWorker {
    /** The watermark: lower bound of the next iteration, and what the upkeep snapshot stores. */
    var startTimestamp: int
    var stats: Stats
    /** The requests handed to fetchData, in order. */
    ghost var sent: seq<FetchParams>
    /** The batches handed to commit, in order. */
    ghost var commits: seq<seq<Item>>

    constructor (startTimestamp: int)
      ensures this.startTimestamp == startTimestamp && stats == NoStats && sent == [] && commits == []
    {
      this.startTimestamp := startTimestamp;
      stats := NoStats;
      sent := [];
      commits := [];
    }

    ghost function View(): WorkerView
      reads this
    {
      WorkerView(startTimestamp, stats, sent, commits)
    }

    /**
     * One iteration of `start` over the outcomes the page source delivers.
     * With `AsWritten` it records `lastTimestamp` before the commit, as the
     * code does; with `CommitFirst` only once the batch is committed. `ended`
     * is false when the outcomes ran out mid-drain; `idle` says the worker
     * sleeps 15 seconds before its next iteration.
     */
    method Start(order: Order, attempts: seq<Attempt>) returns (ended: bool, idle: bool)
      modifies this
      ensures var r := Iteration(order, old(View()), attempts);
              View() == r.view && ended == r.ended && idle == r.idle
    {
      var continuation: Option<Token> := None;
      var lastTimestamp: Option<int> := None;
      var lastItemCount: nat := 0;
      var startFrom := startTimestamp;
      ghost var goal := Drain(order, startFrom, Begin(View()), attempts);
      var i := 0;
      ended := false;
      assert attempts[0..] == attempts;
      while !ended && i < |attempts|
        invariant 0 <= i <= |attempts|
        invariant !ended ==> goal == Shift(Drain(order, startFrom, Locals(continuation, lastTimestamp, lastItemCount), attempts[i..]), i)
        invariant ended ==> goal == Polled(Locals(continuation, lastTimestamp, lastItemCount), true, i)
        decreases |attempts| - i
      {
        continuation, lastTimestamp, lastItemCount := RunBody(order, startFrom, attempts[i], continuation, lastTimestamp, lastItemCount);
        assert attempts[i..][0] == attempts[i] && attempts[i..][1..] == attempts[i + 1..];
        ended := !Truthy(continuation);
        i := i + 1;
      }
      if ended && lastTimestamp.Some? {
        startTimestamp := lastTimestamp.value;
      }
      idle := ended && lastItemCount < PageLimit;
    }

    /** The worker's fields together with the locals of `start`. */
    ghost function Locals(c: Option<Token>, t: Option<int>, n: nat): Pass
      reads this
    {
      Pass(c, t, n, startTimestamp, stats, sent, commits)
    }

    /** One pass of the loop body of `start`, on the locals it threads through. */
    method RunBody(order: Order, startFrom: int, a: Attempt, c: Option<Token>, t: Option<int>, n: nat)
      returns (c': Option<Token>, t': Option<int>, n': nat)
      modifies this
      ensures Locals(c', t', n') == Body(order, startFrom, old(Locals(c, t, n)), a)
    {
      c', t', n' := c, t, n;
      sent := sent + [Request(startFrom, c)];
      match a {
        case FetchFailed =>
          stats := stats.(errors := stats.errors + 1);
        case ExtractFailed =>
          stats := stats.(requests := stats.requests + 1);
          stats := stats.(errors := stats.errors + 1);
        case Page(items, next, ok) =>
          stats := stats.(requests := stats.requests + 1);
          stats := stats.(fetched := stats.fetched + |items|);
          if order == AsWritten {
            t' := LastOf(items);
          }
          if |items| > 0 && !ok {
            commits := commits + [items];
            stats := stats.(errors := stats.errors + 1);
          } else {
            if |items| > 0 {
              commits := commits + [items];
              stats := stats.(committed := stats.committed + |items|);
            }
            if order == CommitFirst {
              t' := LastOf(items);
            }
            startTimestamp := if |items| > 0 then items[0].updatedAt else startTimestamp;
            c' := next;
            n' := |items|;
          }
      }
    }
  }
}
