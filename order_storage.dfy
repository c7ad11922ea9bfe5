/**
 * The order store behind OrderStorageService: asks and bids keyed by id,
 * each save an upsert, each bulk save the upserts of a batch in order.
 */
module OrderStorage {
  import opened MapOrders

  function AskId(a: Ask): string { a.id }
  function BidId(b: Bid): string { b.id }

  /** The map after upserting `orders` in order, each under `key(order)`. */
  function UpsertAll<T>(m: map<string, T>, orders: seq<T>, key: T -> string): map<string, T>
    decreases |orders|
  {
    if orders == [] then m else UpsertAll(m[key(orders[0]) := orders[0]], orders[1..], key)
  }

  /** Some order of the batch has this key. */
  predicate Touched<T>(orders: seq<T>, key: T -> string, k: string) {
    exists i :: 0 <= i < |orders| && key(orders[i]) == k
  }

  /** Order `i` is the last of the batch with key `k`. */
  predicate LastWith<T>(orders: seq<T>, key: T -> string, k: string, i: int) {
    0 <= i < |orders| && key(orders[i]) == k && forall j :: i < j < |orders| ==> key(orders[j]) != k
  }

  /**
   * After a batch, a key the batch touches holds the LAST order with that
   * key (last write wins), and every other key keeps its old entry.
   */
  lemma {:induction false} UpsertAllAt<T>(m: map<string, T>, orders: seq<T>, key: T -> string, k: string)
    ensures var r := UpsertAll(m, orders, key);
      if Touched(orders, key, k) then
        k in r && exists i :: LastWith(orders, key, k, i) && r[k] == orders[i]
      else (k in r <==> k in m) && (k in m ==> r[k] == m[k])
    decreases |orders|
  {
    if orders != [] {
      var m' := m[key(orders[0]) := orders[0]];
      var rest := orders[1..];
      UpsertAllAt(m', rest, key, k);
      var r := UpsertAll(m, orders, key);
      assert r == UpsertAll(m', rest, key);
      if Touched(rest, key, k) {
        var i :| LastWith(rest, key, k, i) && r[k] == rest[i];
        assert key(orders[i + 1]) == k && r[k] == orders[i + 1];
        assert forall j :: i + 1 < j < |orders| ==> key(orders[j]) != k by {
          forall j | i + 1 < j < |orders| ensures key(orders[j]) != k {
            assert orders[j] == rest[j - 1];
          }
        }
        assert LastWith(orders, key, k, i + 1);
      } else if key(orders[0]) == k {
        assert forall j :: 0 < j < |orders| ==> key(orders[j]) != k by {
          forall j | 0 < j < |orders| ensures key(orders[j]) != k {
            assert orders[j] == rest[j - 1];
          }
        }
        assert LastWith(orders, key, k, 0);
      }
    }
  }

  /** Saving the same batch twice leaves the store as saving it once. */
  lemma UpsertAllIdempotent<T>(m: map<string, T>, orders: seq<T>, key: T -> string)
    ensures UpsertAll(UpsertAll(m, orders, key), orders, key) == UpsertAll(m, orders, key)
  {
    var once := UpsertAll(m, orders, key);
    var twice := UpsertAll(once, orders, key);
    forall k | k in once || k in twice
      ensures k in once && k in twice && twice[k] == once[k]
    {
      UpsertAllAt(m, orders, key, k);
      UpsertAllAt(once, orders, key, k);
      if Touched(orders, key, k) {
        var i :| LastWith(orders, key, k, i) && once[k] == orders[i];
        var i' :| LastWith(orders, key, k, i') && twice[k] == orders[i'];
        assert i == i';
      }
    }
    assert twice.Keys == once.Keys;
  }

  class OrderStore {
    var asks: map<string, Ask>
    var bids: map<string, Bid>

    constructor ()
      ensures asks == map[] && bids == map[]
    {
      asks := map[];
      bids := map[];
    }

    /** `saveAsk`: upsert by id. */
    method SaveAsk(order: Ask)
      modifies this
      ensures asks == old(asks)[order.id := order] && bids == old(bids)
    {
      asks := asks[order.id := order];
    }

    /** `saveBid`: upsert by id. */
    method SaveBid(order: Bid)
      modifies this
      ensures bids == old(bids)[order.id := order] && asks == old(asks)
    {
      bids := bids[order.id := order];
    }

    /** `saveAskBulk`: one upsert per ask, in batch order, in one transaction. */
    method SaveAskBulk(orders: seq<Ask>)
      modifies this
      ensures asks == UpsertAll(old(asks), orders, AskId) && bids == old(bids)
    {
      var i := 0;
      while i < |orders|
        invariant 0 <= i <= |orders|
        invariant UpsertAll(asks, orders[i..], AskId) == UpsertAll(old(asks), orders, AskId)
        invariant bids == old(bids)
      {
        assert orders[i..][1..] == orders[i + 1..];
        SaveAsk(orders[i]);
        i := i + 1;
      }
    }

    /** `saveBidBulk`: one upsert per bid, in batch order, in one transaction. */
    method SaveBidBulk(orders: seq<Bid>)
      modifies this
      ensures bids == UpsertAll(old(bids), orders, BidId) && asks == old(asks)
    {
      var i := 0;
      while i < |orders|
        invariant 0 <= i <= |orders|
        invariant UpsertAll(bids, orders[i..], BidId) == UpsertAll(old(bids), orders, BidId)
        invariant asks == old(asks)
      {
        assert orders[i..][1..] == orders[i + 1..];
        SaveBid(orders[i]);
        i := i + 1;
      }
    }
  }
}
