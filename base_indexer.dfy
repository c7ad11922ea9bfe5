/**
 * The shared driver of the asks and bids indexers (ReservoirBaseIndexer):
 * backfill start-up (restore the saved workers or partition a fresh range
 * into days), the backfill and upkeep snapshots, and the choice of the
 * upkeep worker's first watermark. The Redis hash is a map from
 * (state key, job type) to a parsed IndexerState.
 */
module BaseIndexer {
  import opened Feed
  import opened Interfaces
  import opened DayRanges
  import opened BackfillWorkers
  import opened UpkeepWorkers

  const BackfillField := "backfill"
  const UpkeepField := "upkeep"

  /** The fresh-start request for the oldest active order (the API sorts by `updatedAt` ascending). */
  const OldestRequest := FetchParams(None, None, None, 1, Some("active"))

  const StatePrefix := "Indexer:State:"

  /** `Indexer:State:${this.constructor.name}`. */
  function StateKey(className: string): (k: string)
    ensures |k| == |StatePrefix| + |className|
    ensures k[..|StatePrefix|] == StatePrefix && k[|StatePrefix|..] == className
  {
    StatePrefix + className
  }

  /** Indexers of different classes never share saved state. */
  lemma StateKeyInjective(a: string, b: string)
    requires StateKey(a) == StateKey(b)
    ensures a == b
  {
  }

  // ---------------------------------------------------------------------------
  // The backfill snapshot on values

  /** One backfill worker as the snapshot sees it: its saved record and its `isDone` flag. */
  datatype Tracked = Tracked(state: WorkerState, done: bool)

  /** `workers.filter((w) => !w.isDone).map(...)`. */
  function Unfinished(ws: seq<Tracked>): (r: seq<WorkerState>)
    ensures |r| <= |ws|
  {
    if ws == [] then [] else (if ws[0].done then [] else [ws[0].state]) + Unfinished(ws[1..])
  }

  /** How many of the workers are not done. */
  function CountUnfinished(ws: seq<Tracked>): nat
  {
    if ws == [] then 0 else (if ws[0].done then 0 else 1) + CountUnfinished(ws[1..])
  }

  /**
   * The snapshot lists exactly the unfinished workers, in their order: the
   * i-th worker, when not done, sits at the position given by the number of
   * unfinished workers before it, and there is nothing else.
   */
  lemma {:induction false} UnfinishedExact(ws: seq<Tracked>)
    ensures |Unfinished(ws)| == CountUnfinished(ws)
    ensures forall i :: 0 <= i < |ws| && !ws[i].done ==>
      CountUnfinished(ws[..i]) < |Unfinished(ws)| && Unfinished(ws)[CountUnfinished(ws[..i])] == ws[i].state
  {
    if ws != [] {
      var t := ws[1..];
      UnfinishedExact(t);
      var c := if ws[0].done then 0 else 1;
      forall i | 0 <= i < |ws| && !ws[i].done
        ensures CountUnfinished(ws[..i]) < |Unfinished(ws)| && Unfinished(ws)[CountUnfinished(ws[..i])] == ws[i].state
      {
        if i == 0 {
          assert ws[..0] == [];
        } else {
          assert ws[..i][1..] == t[..i - 1];
          assert CountUnfinished(ws[..i]) == c + CountUnfinished(t[..i - 1]);
          assert ws[i] == t[i - 1];
        }
      }
    }
  }

  /** Some worker that is not done carries record `s`. */
  predicate OpenWith(ws: seq<Tracked>, s: WorkerState) {
    exists i :: 0 <= i < |ws| && !ws[i].done && ws[i].state == s
  }

  /** Every saved record belongs to a worker that is not done. */
  lemma {:induction false} UnfinishedOnlyOpen(ws: seq<Tracked>)
    ensures forall k :: 0 <= k < |Unfinished(ws)| ==> OpenWith(ws, Unfinished(ws)[k])
  {
    if ws != [] {
      var t := ws[1..];
      UnfinishedOnlyOpen(t);
      var c := if ws[0].done then 0 else 1;
      forall k | 0 <= k < |Unfinished(ws)|
        ensures OpenWith(ws, Unfinished(ws)[k])
      {
        if k < c {
          assert !ws[0].done && ws[0].state == Unfinished(ws)[k];
        } else {
          assert Unfinished(ws) == (if ws[0].done then [] else [ws[0].state]) + Unfinished(t);
          assert Unfinished(ws)[k] == Unfinished(t)[k - c];
          var i :| 0 <= i < |t| && !t[i].done && t[i].state == Unfinished(t)[k - c];
          assert ws[i + 1] == t[i];
          assert 0 <= i + 1 < |ws| && !ws[i + 1].done && ws[i + 1].state == Unfinished(ws)[k];
        }
      }
    }
  }

  /** While no worker is done, the snapshot keeps every worker. */
  lemma {:induction false} UnfinishedNoneDone(ws: seq<Tracked>)
    requires forall i :: 0 <= i < |ws| ==> !ws[i].done
    ensures |Unfinished(ws)| == |ws|
    ensures forall i :: 0 <= i < |ws| ==> Unfinished(ws)[i] == ws[i].state
  {
    if ws != [] {
      UnfinishedNoneDone(ws[1..]);
    }
  }

  /** Once every worker is done, the snapshot has no workers. */
  lemma {:induction false} UnfinishedAllDone(ws: seq<Tracked>)
    requires forall i :: 0 <= i < |ws| ==> ws[i].done
    ensures Unfinished(ws) == []
  {
    if ws != [] {
      UnfinishedAllDone(ws[1..]);
    }
  }

  /** The worker records of a fresh partition: each day range with no cursor. */
  function RangeStates(rs: seq<TimeRange>): (r: seq<WorkerState>)
    ensures |r| == |rs|
    ensures forall i :: 0 <= i < |rs| ==> r[i] == WorkerState(rs[i].start, rs[i].end, None)
  {
    if rs == [] then [] else [WorkerState(rs[0].start, rs[0].end, None)] + RangeStates(rs[1..])
  }

  /** One turn of the partition loop: the range at the cursor, then the ranges from the next midnight on. */
  lemma PartitionStep(cursor: int, end: int)
    ensures var next := StartOfDay(cursor + DayMs);
      var head := TimeRange(cursor, Min(EndOfDay(cursor), end));
      if next < end then
        Partition(cursor, end) == [head] + Partition(next, end) &&
        |Partition(next, end)| < |Partition(cursor, end)|
      else Partition(cursor, end) == [head]
  {
  }

  // ---------------------------------------------------------------------------
  // The upkeep snapshot

  /** `saveUpkeepState`: the watermark as both bounds, with no workers. */
  function UpkeepSnapshot(mark: int): IndexerState
  {
    IndexerState(mark, mark, [])
  }

  /**
   * The first watermark of `startUpkeep`: the saved upkeep start when there is
   * a saved upkeep state (its ISO date string is never empty, so always
   * truthy), otherwise the end of the backfill range.
   */
  function UpkeepStartFrom(saved: Option<IndexerState>, backfillEnd: int): int
  {
    if saved.Some? then saved.value.startTimestamp else backfillEnd
  }

  /** Saving and then restarting resumes upkeep from the saved watermark; the first run picks it up where backfill ends. */
  lemma UpkeepResumes(mark: int, backfillEnd: int)
    ensures UpkeepStartFrom(Some(UpkeepSnapshot(mark)), backfillEnd) == mark
    ensures UpkeepStartFrom(None, backfillEnd) == backfillEnd
  {
  }

  // ---------------------------------------------------------------------------
  // The state store and the indexer

  /** The Redis hash `hget`/`hset` of getState and setState, JSON encoding taken as exact. */
  class StateStore {
    var entries: map<(string, string), IndexerState>

    constructor ()
      ensures entries == map[]
    {
      entries := map[];
    }

    /** `getState`: the parsed state, or null when nothing is stored. */
    method Get(key: string, field: string) returns (s: Option<IndexerState>)
      ensures s.Some? <==> (key, field) in entries
      ensures s.Some? ==> s.value == entries[(key, field)]
    {
      s := if (key, field) in entries then Some(entries[(key, field)]) else None;
    }

    /** `setState`. */
    method Set(key: string, field: string, state: IndexerState)
      modifies this
      ensures entries == old(entries)[(key, field) := state]
    {
      entries := entries[(key, field) := state];
    }
  }

  /** What the snapshot reads of each backfill worker. */
  function Track(ws: seq<BackfillWorker>): (r: seq<Tracked>)
    reads ws
    ensures |r| == |ws|
    ensures forall i :: 0 <= i < |ws| ==> r[i] == Tracked(ws[i].GetState(), ws[i].isDone)
  {
    if ws == [] then [] else [Tracked(ws[0].GetState(), ws[0].isDone)] + Track(ws[1..])
  }

  /** Workers that have not run yet and carry the given records, one for one. */
  ghost predicate NewWorkers(ws: seq<BackfillWorker>, states: seq<WorkerState>)
    reads ws
  {
    |ws| == |states| && forall i :: 0 <= i < |ws| ==> ws[i].IsNew() && ws[i].GetState() == states[i]
  }

  class ReservoirIndexer {
    const stateKey: string
    const store: StateStore
    var backfillWorkers: seq<BackfillWorker>
    var upkeepWorker: UpkeepWorker?
    var backfillStart: int
    var backfillEnd: int
    /** The fresh-start requests handed to fetchData. */
    ghost var probes: seq<FetchParams>

    /** `backfillStart` and `backfillEnd` are unset until startBackfill; here they start at 0. */
    constructor (className: string, store: StateStore)
      ensures stateKey == StateKey(className) && this.store == store
      ensures backfillWorkers == [] && upkeepWorker == null && probes == []
    {
      stateKey := StateKey(className);
      this.store := store;
      backfillWorkers := [];
      upkeepWorker := null;
      backfillStart := 0;
      backfillEnd := 0;
      probes := [];
    }

    /** The state stored for one job type of this indexer. */
    function Saved(field: string): Option<IndexerState>
      reads this, store
    {
      if (stateKey, field) in store.entries then Some(store.entries[(stateKey, field)]) else None
    }

    /** The object `saveBackfillState` writes. */
    function BackfillSnapshot(): IndexerState
      reads this, backfillWorkers
    {
      IndexerState(backfillStart, backfillEnd, Unfinished(Track(backfillWorkers)))
    }

    method SaveBackfillState()
      modifies store
      ensures store.entries == old(store.entries)[(stateKey, BackfillField) := BackfillSnapshot()]
    {
      store.Set(stateKey, BackfillField, IndexerState(backfillStart, backfillEnd, Unfinished(Track(backfillWorkers))));
    }

    method SaveUpkeepState()
      requires upkeepWorker != null
      modifies store
      ensures store.entries == old(store.entries)[(stateKey, UpkeepField) := UpkeepSnapshot(upkeepWorker.startTimestamp)]
    {
      store.Set(stateKey, UpkeepField, UpkeepSnapshot(upkeepWorker.startTimestamp));
    }

    /** `createBackfillWorker` and the push: a new worker that has not run, at the end of the list. */
    method AddWorker(s: WorkerState)
      modifies this`backfillWorkers
      ensures |backfillWorkers| == |old(backfillWorkers)| + 1
      ensures backfillWorkers[..|old(backfillWorkers)|] == old(backfillWorkers)
      ensures var w := backfillWorkers[|old(backfillWorkers)|]; fresh(w) && w.IsNew() && w.GetState() == s
    {
      var w := new BackfillWorker(s.startTimestamp, s.endTimestamp, s.continuation);
      backfillWorkers := backfillWorkers + [w];
    }

    /** The restore branch's forEach: one new worker per saved record, in order, after the existing ones. */
    method RestoreWorkers(states: seq<WorkerState>)
      modifies this`backfillWorkers
      ensures |backfillWorkers| == |old(backfillWorkers)| + |states|
      ensures backfillWorkers[..|old(backfillWorkers)|] == old(backfillWorkers)
      ensures NewWorkers(backfillWorkers[|old(backfillWorkers)|..], states)
      ensures forall i :: |old(backfillWorkers)| <= i < |backfillWorkers| ==> fresh(backfillWorkers[i])
    {
      var n := |backfillWorkers|;
      var k := 0;
      while k < |states|
        invariant 0 <= k <= |states|
        invariant |backfillWorkers| == n + k
        invariant backfillWorkers[..n] == old(backfillWorkers)
        invariant forall i :: n <= i < n + k ==>
          fresh(backfillWorkers[i]) && backfillWorkers[i].IsNew() && backfillWorkers[i].GetState() == states[i - n]
      {
        AddWorker(states[k]);
        k := k + 1;
      }
    }

    /** The fresh branch's do-while: one new worker per day range of `[start, end]`, after the existing ones. */
    method PartitionWorkers(start: int, end: int)
      modifies this`backfillWorkers
      ensures |backfillWorkers| == |old(backfillWorkers)| + |Partition(start, end)|
      ensures backfillWorkers[..|old(backfillWorkers)|] == old(backfillWorkers)
      ensures NewWorkers(backfillWorkers[|old(backfillWorkers)|..], RangeStates(Partition(start, end)))
      ensures forall i :: |old(backfillWorkers)| <= i < |backfillWorkers| ==> fresh(backfillWorkers[i])
    {
      var n := |backfillWorkers|;
      ghost var all := Partition(start, end);
      ghost var k := 0;
      var cursor := start;
      var more := true;
      while more
        invariant |backfillWorkers| == n + k
        invariant backfillWorkers[..n] == old(backfillWorkers)
        invariant more ==> k < |all| && all[k..] == Partition(cursor, end)
        invariant !more ==> k == |all|
        invariant forall i :: n <= i < n + k ==>
          fresh(backfillWorkers[i]) && backfillWorkers[i].IsNew() &&
          backfillWorkers[i].GetState() == WorkerState(all[i - n].start, all[i - n].end, None)
        decreases |all| - k
      {
        PartitionStep(cursor, end);
        assert all[k] == Partition(cursor, end)[0];
        var nextEnd := EndOfDay(cursor);
        ghost var before := backfillWorkers;
        AddWorker(WorkerState(cursor, Min(nextEnd, end), None));
        k := k + 1;
        forall i | n <= i < n + k
          ensures fresh(backfillWorkers[i]) && backfillWorkers[i].IsNew()
          ensures backfillWorkers[i].GetState() == WorkerState(all[i - n].start, all[i - n].end, None)
        {
          if i < |before| {
            assert backfillWorkers[i] == before[i];
          }
        }
        cursor := StartOfDay(cursor + DayMs);
        if !(cursor < end) {
          more := false;
        } else {
          assert all[k..] == all[k - 1..][1..];
        }
      }
      ghost var added := backfillWorkers[n..];
      forall i | 0 <= i < |added|
        ensures added[i].IsNew() && added[i].GetState() == RangeStates(all)[i]
      {
        assert added[i] == backfillWorkers[n + i];
      }
    }

    /**
     * `startBackfill` up to the queue: restore the saved workers, or probe for
     * the oldest active order and partition `[its updatedAt, now]` into days;
     * then save the snapshot. An empty or failed probe rejects before any
     * state changes. In the model, no queued worker takes a step before it
     * returns.
     */
    method StartBackfill(probe: Option<seq<Item>>, now: int) returns (ok: bool)
      modifies this, store
      ensures upkeepWorker == old(upkeepWorker)
      ensures |backfillWorkers| >= |old(backfillWorkers)|
      ensures backfillWorkers[..|old(backfillWorkers)|] == old(backfillWorkers)
      ensures forall i :: |old(backfillWorkers)| <= i < |backfillWorkers| ==> fresh(backfillWorkers[i])
      ensures old(Saved(BackfillField)).Some? ==>
        var st := old(Saved(BackfillField)).value;
        ok && probes == old(probes) &&
        backfillStart == st.startTimestamp && backfillEnd == st.endTimestamp &&
        NewWorkers(backfillWorkers[|old(backfillWorkers)|..], st.workers)
      ensures old(Saved(BackfillField)).None? ==> probes == old(probes) + [OldestRequest]
      ensures old(Saved(BackfillField)).None? ==>
        (ok <==> probe.Some? && probe.value != [])
      ensures old(Saved(BackfillField)).None? && ok ==>
        var start := probe.value[0].updatedAt;
        backfillStart == start && backfillEnd == now &&
        NewWorkers(backfillWorkers[|old(backfillWorkers)|..], RangeStates(Partition(start, now)))
      ensures ok ==> store.entries == old(store.entries)[(stateKey, BackfillField) := BackfillSnapshot()]
      ensures !ok ==>
        (store.entries == old(store.entries) && backfillWorkers == old(backfillWorkers) &&
         backfillStart == old(backfillStart) && backfillEnd == old(backfillEnd))
    {
      var state := store.Get(stateKey, BackfillField);
      if state.Some? {
        backfillStart := state.value.startTimestamp;
        backfillEnd := state.value.endTimestamp;
        RestoreWorkers(state.value.workers);
      } else {
        probes := probes + [OldestRequest];
        if probe.None? || probe.value == [] {
          // fetchData or getData rejected, or res[0] is undefined
          return false;
        }
        var start := probe.value[0].updatedAt;
        backfillStart := start;
        backfillEnd := now;
        PartitionWorkers(start, now);
      }
      SaveBackfillState();
      ok := true;
    }

    /** `startUpkeep` up to `upkeepWorker.start()`: a new worker at the chosen watermark. */
    method StartUpkeep()
      modifies this`upkeepWorker
      ensures upkeepWorker != null && fresh(upkeepWorker)
      ensures upkeepWorker.View() == WorkerView(UpkeepStartFrom(Saved(UpkeepField), backfillEnd), NoStats, [], [])
    {
      var saved := store.Get(stateKey, UpkeepField);
      var startTimestamp := if saved.Some? then saved.value.startTimestamp else backfillEnd;
      upkeepWorker := new UpkeepWorker(startTimestamp);
    }

    /**
     * `start`: backfill start-up, then upkeep start-up straight away (the
     * queue is started, not awaited). In the model, no backfill worker takes
     * a step before the upkeep worker is created. A rejected backfill
     * start-up skips upkeep and changes nothing but the probe record.
     */
    method Start(probe: Option<seq<Item>>, now: int) returns (ok: bool)
      modifies this, store
      ensures upkeepWorker != old(upkeepWorker) <==> ok
      ensures ok ==>
        (upkeepWorker != null && fresh(upkeepWorker) &&
         upkeepWorker.View() == WorkerView(UpkeepStartFrom(old(Saved(UpkeepField)), backfillEnd), NoStats, [], []))
      ensures forall i :: |old(backfillWorkers)| <= i < |backfillWorkers| ==>
        fresh(backfillWorkers[i]) && backfillWorkers[i].IsNew()
      ensures |backfillWorkers| >= |old(backfillWorkers)|
      ensures backfillWorkers[..|old(backfillWorkers)|] == old(backfillWorkers)
      ensures old(Saved(BackfillField)).Some? ==>
        var st := old(Saved(BackfillField)).value;
        ok && probes == old(probes) &&
        backfillStart == st.startTimestamp && backfillEnd == st.endTimestamp &&
        NewWorkers(backfillWorkers[|old(backfillWorkers)|..], st.workers)
      ensures old(Saved(BackfillField)).None? ==> probes == old(probes) + [OldestRequest]
      ensures old(Saved(BackfillField)).None? ==>
        (ok <==> probe.Some? && probe.value != [])
      ensures old(Saved(BackfillField)).None? && ok ==>
        var start := probe.value[0].updatedAt;
        backfillStart == start && backfillEnd == now &&
        NewWorkers(backfillWorkers[|old(backfillWorkers)|..], RangeStates(Partition(start, now)))
      ensures ok ==> store.entries == old(store.entries)[(stateKey, BackfillField) := BackfillSnapshot()]
      ensures !ok ==>
        (store.entries == old(store.entries) && backfillWorkers == old(backfillWorkers) &&
         backfillStart == old(backfillStart) && backfillEnd == old(backfillEnd))
    {
      ok := StartBackfill(probe, now);
      if ok {
        StartUpkeep();
      }
    }
  }

  /**
   * A restart: one indexer saves its backfill snapshot, and a new one over the
   * same store key starts up. It restores the saved bounds and exactly the
   * unfinished workers, in order, with their ranges and cursors.
   */
  method Restart(before: ReservoirIndexer, after: ReservoirIndexer, probe: Option<seq<Item>>, now: int) returns (ok: bool)
    requires before != after && before.store == after.store && before.stateKey == after.stateKey
    requires after.backfillWorkers == []
    modifies before.store, after
    ensures ok
    ensures after.backfillStart == before.backfillStart && after.backfillEnd == before.backfillEnd
    ensures NewWorkers(after.backfillWorkers, Unfinished(Track(before.backfillWorkers)))
  {
    before.SaveBackfillState();
    ok := after.StartBackfill(probe, now);
  }
}
