/**
 * A backfill worker drains one bounded time range of a feed by cursor
 * pagination (BackfillWorker.ts). The `run` generator and the `start` loop
 * that consumes it are modelled together: one pass of the do…while body
 * fetches a page, counts it, yields the batch, lets `start` commit it, and
 * only then adopts the page's continuation.
 */
module BackfillWorkers {
  import opened Feed
  import opened Interfaces

  /** The mutable part of a worker as a value: cursor, counters, and the calls made to fetchData and commit. */
  datatype Progress = Progress(
    continuation: Option<Token>,
    stats: Stats,
    sent: seq<FetchParams>,
    commits: seq<seq<Item>>)

  /** Where a call of `start` stands once the supplied outcomes are used up. */
  datatype Outcome =
    | Finished          // the loop saw an absent cursor; start() marks the worker done
    | CommitThrew       // commit rejected: the for-await rethrows and start() rejects
    | AwaitingResponse  // the outcomes ran out while the loop was still going

  /** The progress reached, how the call stands, and how many outcomes it used. */
  datatype Drained = Drained(progress: Progress, outcome: Outcome, used: nat)

  /** The request of one pass for the range [lo, hi] at cursor c. */
  function Request(lo: int, hi: int, c: Option<Token>): FetchParams
  {
    FetchParams(Some(ToSeconds(lo)), Some(ToSeconds(hi)), CursorParam(c), PageLimit, Some("active"))
  }

  /**
   * One pass of the loop body. The flag is true when commit threw; then the
   * cursor is not updated, because the generator never resumes.
   */
  function Body(lo: int, hi: int, p: Progress, a: Attempt): (Progress, bool)
  {
    var sent := p.sent + [Request(lo, hi, p.continuation)];
    var s := p.stats;
    match a
    case FetchFailed =>
      (p.(sent := sent, stats := s.(errors := s.errors + 1)), false)
    case ExtractFailed =>
      (p.(sent := sent, stats := s.(requests := s.requests + 1, errors := s.errors + 1)), false)
    case Page(items, next, ok) =>
      var counted := s.(requests := s.requests + 1, fetched := s.fetched + |items|);
      if ok then
        (Progress(next, counted.(committed := s.committed + |items|), sent, p.commits + [items]), false)
      else
        (Progress(p.continuation, counted, sent, p.commits + [items]), true)
  }

  /** The do…while loop of `run` driven by `start`, from the top of the body. */
  function Drain(lo: int, hi: int, p: Progress, attempts: seq<Attempt>): (r: Drained)
    ensures r.used <= |attempts|
    ensures r.used == 0 <==> attempts == []
    ensures r.used == 0 ==> r.progress == p && r.outcome == AwaitingResponse
    ensures r.outcome == AwaitingResponse ==> r.used == |attempts|
    ensures r.outcome == Finished ==> !Truthy(r.progress.continuation)
    ensures r.outcome == AwaitingResponse && r.used > 0 ==> Truthy(r.progress.continuation)
    decreases |attempts|
  {
    if attempts == [] then Drained(p, AwaitingResponse, 0)
    else
      var (q, threw) := Body(lo, hi, p, attempts[0]);
      if threw then Drained(q, CommitThrew, 1)
      else if !Truthy(q.continuation) then Drained(q, Finished, 1)
      else
        var d := Drain(lo, hi, q, attempts[1..]);
        Drained(d.progress, d.outcome, d.used + 1)
  }

  function Later(d: Drained, k: nat): Drained
  {
    d.(used := d.used + k)
  }

  // Reference accounting, one outcome at a time, independent of the loop.

  /** Outcomes that counted as an error: every rejected fetch or extract. */
  function Errors(attempts: seq<Attempt>): nat
  {
    if attempts == [] then 0 else (if attempts[0].Page? then 0 else 1) + Errors(attempts[1..])
  }

  /** Items of every page whose commit resolved. */
  function Committed(attempts: seq<Attempt>): nat
  {
    if attempts == [] then 0
    else (if attempts[0].Page? && attempts[0].commitOk then |attempts[0].items| else 0) + Committed(attempts[1..])
  }

  /** Every extracted batch, in page order, each handed to commit. */
  function Batches(attempts: seq<Attempt>): seq<seq<Item>>
  {
    if attempts == [] then [] else (if attempts[0].Page? then [attempts[0].items] else []) + Batches(attempts[1..])
  }

  /** The cursor after some outcomes: only a page whose commit resolved moves it. */
  function CursorAfter(c: Option<Token>, attempts: seq<Attempt>): Option<Token>
    decreases |attempts|
  {
    if attempts == [] then c
    else CursorAfter(if attempts[0].Page? && attempts[0].commitOk then attempts[0].next else c, attempts[1..])
  }

  /**
   * Counters and commits: each request that came back adds one to `requests`,
   * each extracted batch adds its length to `fetched` and is committed once, in
   * page order; `committed` grows by the batches whose commit resolved; each
   * rejected fetch or extract adds one to `errors`; the cursor is the one the
   * committed pages left behind.
   */
  lemma {:induction false} DrainAccounts(lo: int, hi: int, p: Progress, attempts: seq<Attempt>)
    ensures var r := Drain(lo, hi, p, attempts);
            var done := attempts[..r.used];
            && r.progress.stats.requests == p.stats.requests + Requests(done)
            && r.progress.stats.fetched == p.stats.fetched + Fetched(done)
            && r.progress.stats.errors == p.stats.errors + Errors(done)
            && r.progress.stats.committed == p.stats.committed + Committed(done)
            && r.progress.commits == p.commits + Batches(done)
            && r.progress.continuation == CursorAfter(p.continuation, done)
    decreases |attempts|
  {
    if attempts != [] {
      var (q, threw) := Body(lo, hi, p, attempts[0]);
      if threw || !Truthy(q.continuation) {
        assert attempts[..1] == [attempts[0]];
        assert attempts[..1][1..] == [];
      } else {
        DrainAccounts(lo, hi, q, attempts[1..]);
        var d := Drain(lo, hi, q, attempts[1..]);
        assert attempts[..d.used + 1][0] == attempts[0];
        assert attempts[..d.used + 1][1..] == attempts[1..][..d.used];
      }
    }
  }

  /** The cursor after a non-empty prefix: the first outcome's effect, then the rest of the prefix. */
  lemma CursorAfterFirst(c: Option<Token>, attempts: seq<Attempt>, i: nat)
    requires 0 < i <= |attempts|
    ensures CursorAfter(c, attempts[..i]) == CursorAfter(CursorAfter(c, attempts[..1]), attempts[1..][..i - 1])
  {
    assert attempts[..i][0] == attempts[0];
    assert attempts[..i][1..] == attempts[1..][..i - 1];
    assert attempts[..1][1..] == [];
  }

  /**
   * Every pass sends exactly one request, in order, each with the fixed bounds
   * in seconds, limit 1000, status 'active', and the cursor left by the
   * committed pages before it: a failed pass retries the same cursor.
   */
  lemma {:induction false} DrainRequests(lo: int, hi: int, p: Progress, attempts: seq<Attempt>)
    ensures var r := Drain(lo, hi, p, attempts);
            && |r.progress.sent| == |p.sent| + r.used
            && r.progress.sent[..|p.sent|] == p.sent
            && forall i :: 0 <= i < r.used ==>
                 r.progress.sent[|p.sent| + i] == Request(lo, hi, CursorAfter(p.continuation, attempts[..i]))
    decreases |attempts|
  {
    if attempts != [] {
      var (q, threw) := Body(lo, hi, p, attempts[0]);
      assert attempts[..0] == [];
      if !(threw || !Truthy(q.continuation)) {
        DrainRequests(lo, hi, q, attempts[1..]);
        var r := Drain(lo, hi, p, attempts);
        var d := Drain(lo, hi, q, attempts[1..]);
        assert q.continuation == CursorAfter(p.continuation, attempts[..1]);
        forall i | 0 <= i < r.used
          ensures r.progress.sent[|p.sent| + i] == Request(lo, hi, CursorAfter(p.continuation, attempts[..i]))
        {
          if i > 0 {
            CursorAfterFirst(p.continuation, attempts, i);
            assert r.progress.sent[|p.sent| + i] == d.progress.sent[|q.sent| + (i - 1)];
          }
        }
      }
    }
  }

  /** Every request, whatever its outcome, carries the worker's bounds in seconds, limit 1000 and status 'active'. */
  lemma RequestsKeepBounds(lo: int, hi: int, p: Progress, attempts: seq<Attempt>)
    ensures var r := Drain(lo, hi, p, attempts);
            forall i :: |p.sent| <= i < |r.progress.sent| ==>
              var q := r.progress.sent[i];
              && q.startTimestamp == Some(lo / 1000) && lo / 1000 * 1000 <= lo < lo / 1000 * 1000 + 1000
              && q.endTimestamp == Some(hi / 1000) && hi / 1000 * 1000 <= hi < hi / 1000 * 1000 + 1000
              && q.limit == 1000 && q.status == Some("active")
  {
    DrainRequests(lo, hi, p, attempts);
    var r := Drain(lo, hi, p, attempts);
    forall i | |p.sent| <= i < |r.progress.sent|
      ensures r.progress.sent[i] == Request(lo, hi, CursorAfter(p.continuation, attempts[..i - |p.sent|]))
    {
      var k := i - |p.sent|;
      assert r.progress.sent[|p.sent| + k] == Request(lo, hi, CursorAfter(p.continuation, attempts[..k]));
    }
  }

  /**
   * The loop ends exactly when the cursor is absent: after every pass but the
   * last one used the cursor was present and no commit threw; the call ends
   * Finished only on an absent cursor, and CommitThrew only on a page whose
   * commit rejected.
   */
  lemma {:induction false} DrainStopsAtAbsentCursor(lo: int, hi: int, p: Progress, attempts: seq<Attempt>)
    ensures var r := Drain(lo, hi, p, attempts);
            && (forall j :: 0 < j < r.used ==> Truthy(CursorAfter(p.continuation, attempts[..j])))
            && (forall j :: 0 <= j < r.used - 1 ==> !(attempts[j].Page? && !attempts[j].commitOk))
            && (r.outcome == Finished ==> !Truthy(CursorAfter(p.continuation, attempts[..r.used])))
            && (r.outcome == CommitThrew <==> (r.used > 0 && attempts[r.used - 1].Page? && !attempts[r.used - 1].commitOk))
    decreases |attempts|
  {
    if attempts != [] {
      var (q, threw) := Body(lo, hi, p, attempts[0]);
      var r := Drain(lo, hi, p, attempts);
      DrainAccounts(lo, hi, p, attempts);
      if !(threw || !Truthy(q.continuation)) {
        DrainStopsAtAbsentCursor(lo, hi, q, attempts[1..]);
        var d := Drain(lo, hi, q, attempts[1..]);
        assert q.continuation == CursorAfter(p.continuation, attempts[..1]);
        forall j | 0 < j < r.used
          ensures Truthy(CursorAfter(p.continuation, attempts[..j]))
        {
          if j > 1 {
            CursorAfterFirst(p.continuation, attempts, j);
            assert Truthy(CursorAfter(q.continuation, attempts[1..][..j - 1]));
          }
        }
        forall j | 0 <= j < r.used - 1
          ensures !(attempts[j].Page? && !attempts[j].commitOk)
        {
          if j > 0 {
            assert attempts[j] == attempts[1..][j - 1];
          }
        }
      }
    }
  }

  /** Any cursor the worker holds is its initial one or the continuation of a page whose batch was committed. */
  lemma {:induction false} CursorFromCommittedPage(c: Option<Token>, attempts: seq<Attempt>)
    ensures var e := CursorAfter(c, attempts);
            e == c || exists i :: 0 <= i < |attempts| && attempts[i].Page? && attempts[i].commitOk && attempts[i].next == e
    decreases |attempts|
  {
    if attempts != [] {
      var c' := if attempts[0].Page? && attempts[0].commitOk then attempts[0].next else c;
      CursorFromCommittedPage(c', attempts[1..]);
      var e := CursorAfter(c, attempts);
      if e != c' {
        var i :| 0 <= i < |attempts[1..]| && attempts[1..][i].Page? && attempts[1..][i].commitOk && attempts[1..][i].next == e;
        assert attempts[i + 1] == attempts[1..][i];
      } else if e != c {
        assert attempts[0].Page? && attempts[0].commitOk && attempts[0].next == e;
      }
    }
  }

  /** A rejected fetch or extract while the cursor is absent (the first pass of a fresh worker) ends the loop. */
  lemma ErrorWithoutCursorEnds(lo: int, hi: int, p: Progress, rest: seq<Attempt>, failure: Attempt)
    requires !failure.Page? && !Truthy(p.continuation)
    ensures var r := Drain(lo, hi, p, [failure] + rest);
            && r.outcome == Finished && r.used == 1
            && r.progress.continuation == p.continuation
            && r.progress.stats.errors == p.stats.errors + 1
            && r.progress.commits == p.commits
  {
  }

  /** A last page of three items ends the loop after committing exactly those three items. */
  lemma LastPageOfThree(lo: int, hi: int, p: Progress, x: Item, y: Item, z: Item, rest: seq<Attempt>)
    ensures var r := Drain(lo, hi, p, [Page([x, y, z], None, true)] + rest);
            && r.outcome == Finished && r.used == 1
            && r.progress.commits == p.commits + [[x, y, z]]
            && r.progress.stats.committed == p.stats.committed + 3
            && r.progress.stats.fetched == p.stats.fetched + 3
  {
  }

  class BackfillWorker {
    const startTimestamp: int
    const endTimestamp: int
    var continuation: Option<Token>
    var isRunning: bool
    var isDone: bool
    var stats: Stats
    /** The requests handed to fetchData, in order. */
    ghost var sent: seq<FetchParams>
    /** The batches handed to commit, in order. */
    ghost var commits: seq<seq<Item>>

    constructor (startTimestamp: int, endTimestamp: int, continuation: Option<Token>)
      ensures this.startTimestamp == startTimestamp && this.endTimestamp == endTimestamp
      ensures this.continuation == continuation
      ensures IsNew()
    {
      this.startTimestamp := startTimestamp;
      this.endTimestamp := endTimestamp;
      this.continuation := continuation;
      isRunning := false;
      isDone := false;
      stats := NoStats;
      sent := [];
      commits := [];
    }

    /** Neither started nor done, with zero counters and no calls made. */
    ghost predicate IsNew()
      reads this
    {
      !isRunning && !isDone && stats == NoStats && sent == [] && commits == []
    }

    ghost function View(): Progress
      reads this
    {
      Progress(continuation, stats, sent, commits)
    }

    /** The snapshot entry for this worker. */
    function GetState(): (s: WorkerState)
      reads this
      ensures s.startTimestamp == startTimestamp && s.endTimestamp == endTimestamp
      ensures s.continuation == continuation
    {
      WorkerState(startTimestamp, endTimestamp, continuation)
    }

    /** One pass of the loop body: send the request, count the outcome, commit a page and adopt its cursor. */
    method RunPass(a: Attempt) returns (threw: bool)
      modifies this`sent, this`stats, this`commits, this`continuation
      ensures (View(), threw) == Body(startTimestamp, endTimestamp, old(View()), a)
    {
      sent := sent + [Request(startTimestamp, endTimestamp, continuation)];
      threw := false;
      match a {
        case FetchFailed =>
          stats := stats.(errors := stats.errors + 1);
        case ExtractFailed =>
          stats := stats.(requests := stats.requests + 1);
          stats := stats.(errors := stats.errors + 1);
        case Page(items, next, ok) =>
          stats := stats.(requests := stats.requests + 1);
          stats := stats.(fetched := stats.fetched + |items|);
          commits := commits + [items];
          if ok {
            stats := stats.(committed := stats.committed + |items|);
            continuation := next;
          } else {
            threw := true;
          }
      }
    }

    /**
     * `start`: runs the pagination loop over the outcomes the page source
     * delivers. Running out of outcomes leaves the worker running, awaiting
     * its next response; a rejected commit leaves it running and not done.
     */
    method Start(attempts: seq<Attempt>) returns (outcome: Outcome)
      modifies this
      ensures var d := Drain(startTimestamp, endTimestamp, old(View()), attempts);
              View() == d.progress && outcome == d.outcome
      ensures isRunning == (outcome != Finished)
      ensures isDone == (old(isDone) || outcome == Finished)
    {
      isRunning := true;
      ghost var p0 := View();
      outcome := AwaitingResponse;
      var i := 0;
      var stop := false;
      assert attempts[0..] == attempts;
      while !stop && i < |attempts|
        invariant 0 <= i <= |attempts|
        invariant isRunning && isDone == old(isDone)
        invariant !stop ==> outcome == AwaitingResponse
        invariant !stop ==> Drain(startTimestamp, endTimestamp, p0, attempts)
                            == Later(Drain(startTimestamp, endTimestamp, View(), attempts[i..]), i)
        invariant stop ==> outcome != AwaitingResponse
        invariant stop ==> Drain(startTimestamp, endTimestamp, p0, attempts) == Drained(View(), outcome, i)
        decreases |attempts| - i
      {
        assert attempts[i..][0] == attempts[i] && attempts[i..][1..] == attempts[i + 1..];
        var threw := RunPass(attempts[i]);
        if threw {
          outcome := CommitThrew;
          stop := true;
        }
        if !stop && !Truthy(continuation) {
          outcome := Finished;
          stop := true;
        }
        i := i + 1;
      }
      if outcome == Finished {
        isRunning := false;
        isDone := true;
      }
    }
  }
}
