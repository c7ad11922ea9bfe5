/**
 * The persisted progress records (IWorkerState and IIndexerState). Dates are
 * epoch milliseconds; the JSON/Date encoding in the state store is taken to
 * round-trip them exactly.
 */
module Interfaces {
  import opened Feed

  /** One backfill worker's range and pagination cursor. */
  datatype WorkerState = WorkerState(startTimestamp: int, endTimestamp: int, continuation: Option<Token>)

  /** The root object stored per job type: the overall bounds and the unfinished workers. */
  datatype IndexerState = IndexerState(startTimestamp: int, endTimestamp: int, workers: seq<WorkerState>)
}
