/**
 * What the backfill and upkeep workers share: the shape of one page request,
 * the injected page source (fetchData / getData / getContinuation / commit)
 * replaced by a sequence of outcomes, the `stats` counters, and the
 * JavaScript truthiness of a continuation cursor.
 */
module Feed {

  datatype Option<+T> = None | Some(value: T)

  /** An opaque continuation cursor returned by the remote API. */
  type Token = string

  /** A mapped order as the workers see it: they only count items and read `updatedAt` (epoch ms). */
  datatype Item = Item(id: string, updatedAt: int)

  /**
   * What one pass of a worker's loop body gets from its injected collaborators:
   * fetchData rejects, getData rejects, or a page of items with its
   * continuation, together with whether the `commit` of that batch resolves.
   */
  datatype Attempt =
    | FetchFailed
    | ExtractFailed
    | Page(items: seq<Item>, next: Option<Token>, commitOk: bool)

  /** The `stats` object of both worker kinds. */
  datatype Stats = Stats(fetched: nat, committed: nat, requests: nat, errors: nat)

  const NoStats := Stats(0, 0, 0, 0)

  /** The params object handed to fetchData; a field the source leaves out is None. */
  datatype FetchParams = FetchParams(
    startTimestamp: Option<int>,
    endTimestamp: Option<int>,
    continuation: Option<Token>,
    limit: nat,
    status: Option<string>)

  /** Page size of every worker request. */
  const PageLimit: nat := 1000

  /** `if (continuation)`: null, undefined and the empty string are all false. */
  predicate Truthy(c: Option<Token>) {
    c.Some? && c.value != ""
  }

  /** `continuation ? continuation : undefined`, also written `continuation || undefined`. */
  function CursorParam(c: Option<Token>): (p: Option<Token>)
    ensures p.Some? <==> Truthy(c)
    ensures p.Some? ==> p == c
  {
    if Truthy(c) then c else None
  }

  /** `Math.floor(ms / 1000)`: with a positive divisor Dafny's `/` rounds down, for negative `ms` too. */
  function ToSeconds(ms: int): (s: int)
    ensures s * 1000 <= ms < s * 1000 + 1000
  {
    ms / 1000
  }

  /** Outcomes whose fetch came back: each adds one to `requests`. */
  function Requests(attempts: seq<Attempt>): nat
  {
    if attempts == [] then 0 else (if attempts[0].FetchFailed? then 0 else 1) + Requests(attempts[1..])
  }

  /** Items extracted from the pages among some outcomes: what `fetched` grows by. */
  function Fetched(attempts: seq<Attempt>): nat
  {
    if attempts == [] then 0 else (if attempts[0].Page? then |attempts[0].items| else 0) + Fetched(attempts[1..])
  }

  function Min(a: int, b: int): (m: int)
    ensures m <= a && m <= b && (m == a || m == b)
  {
    if a < b then a else b
  }
}
