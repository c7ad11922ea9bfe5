/**
 * Mapping of the API's raw orders onto the stored Ask and Bid records
 * (map-orders), and the two extractors built on it: the asks extractor keeps
 * token orders only, the bids extractor maps every order. A field read
 * through a missing object throws in the source; here it is a Failure.
 */
module MapOrders {
  import opened Feed

  datatype Result<+R, +E> = Success(value: R) | Failure(error: E)

  datatype TokenRef = TokenRef(tokenId: string)
  datatype AttributeRef = AttributeRef(attributeKey: string, attributeValue: string)

  /** `criteria`: the kind, and `data.token` / `data.attribute` when the API sends them. */
  datatype Criteria = Criteria(kind: string, token: Option<TokenRef>, attribute: Option<AttributeRef>)

  /**
   * The fields of an API order the mappers read. Times are epoch ms, except
   * `validUntil` and `validFrom`, which the API gives in seconds. Prices are
   * not part of this model.
   */
  datatype RawOrder = RawOrder(
    id: string,
    maker: string,
    taker: string,
    contract: string,
    criteria: Criteria,
    quantityFilled: int,
    quantityRemaining: int,
    priceCurrency: string,
    feeBps: int,
    status: string,
    createdAt: int,
    validUntil: int,
    validFrom: int,
    sourceDomain: string,
    updatedAt: int)

  datatype BidType = TOKEN | ATTRIBUTE | COLLECTION | OTHER

  datatype Ask = Ask(
    id: string,
    makerId: string,
    takerId: string,
    collectionId: string,
    tokenId: string,
    quantityFilled: int,
    quantityRemaining: int,
    priceCurrency: string,
    feeBps: int,
    status: string,
    createdAt: int,
    expiresAt: int,
    validFrom: int,
    marketplace: string,
    updatedAt: int)

  datatype Bid = Bid(
    id: string,
    makerId: string,
    takerId: string,
    bidType: BidType,
    collectionId: string,
    tokenId: Option<string>,
    attributeKey: Option<string>,
    attributeValue: Option<string>,
    quantityFilled: int,
    quantityRemaining: int,
    priceCurrency: string,
    feeBps: int,
    status: string,
    createdAt: int,
    expiresAt: int,
    validFrom: int,
    marketplace: string,
    updatedAt: int)

  /** The property of the order that read through a missing object. */
  datatype MapError = MissingToken | MissingAttribute

  // ---------------------------------------------------------------------------
  // Bid type

  /** `getBidType`: the if-chain over `criteria.kind`. */
  function GetBidType(kind: string): (t: BidType)
    ensures t == OTHER <==> kind != "token" && kind != "attribute" && kind != "collection"
  {
    if kind == "token" then TOKEN
    else if kind == "attribute" then ATTRIBUTE
    else if kind == "collection" then COLLECTION
    else OTHER
  }

  /** The criteria kind that each named bid type stands for. */
  function KindOf(t: BidType): (kind: string)
    requires t != OTHER
  {
    match t
    case TOKEN => "token"
    case ATTRIBUTE => "attribute"
    case COLLECTION => "collection"
  }

  /** The classifier and its inverse agree on the three named kinds. */
  lemma BidTypeRoundTrip(t: BidType, kind: string)
    ensures t != OTHER ==> GetBidType(KindOf(t)) == t
    ensures GetBidType(kind) != OTHER ==> KindOf(GetBidType(kind)) == kind
  {
  }

  // ---------------------------------------------------------------------------
  // Status and token key

  function UpperChar(c: char): char
  {
    if 'a' <= c <= 'z' then (c as int - 'a' as int + 'A' as int) as char else c
  }

  /** `toUpperCase` on ASCII letters; other characters are kept. */
  function Upper(s: string): (u: string)
    ensures |u| == |s|
    ensures forall i :: 0 <= i < |s| ==> u[i] == UpperChar(s[i])
  {
    if s == [] then [] else [UpperChar(s[0])] + Upper(s[1..])
  }

  /** Upper-casing leaves no lower-case ASCII letter and is idempotent. */
  lemma UpperIdempotent(s: string)
    ensures forall i :: 0 <= i < |s| ==> !('a' <= Upper(s)[i] <= 'z')
    ensures Upper(Upper(s)) == Upper(s)
  {
  }

  /** The stored `tokenId`: `${contract}_${tokenId}`. */
  function TokenKey(contract: string, tokenId: string): (k: string)
    ensures |k| == |contract| + 1 + |tokenId| && k[|contract|] == '_'
  {
    contract + "_" + tokenId
  }

  /**
   * Contracts are hex addresses and carry no '_': then the key determines
   * both the contract and the token id.
   */
  lemma TokenKeyInjective(c1: string, t1: string, c2: string, t2: string)
    requires '_' !in c1 && '_' !in c2
    requires TokenKey(c1, t1) == TokenKey(c2, t2)
    ensures c1 == c2 && t1 == t2
  {
    var k := TokenKey(c1, t1);
    if |c1| != |c2| {
      // the separator of the shorter contract would be a character of the longer one
      assert false;
    }
    assert c1 == k[..|c1|] == c2;
    assert t1 == k[|c1| + 1..] == t2;
  }

  // ---------------------------------------------------------------------------
  // The mappers

  /** `mapBid`: the token key only for token criteria, the attribute pair only for attribute criteria. */
  function MapBid(item: RawOrder): (r: Result<Bid, MapError>)
    ensures r.Failure? <==>
      (item.criteria.kind == "token" && item.criteria.token.None?) ||
      (item.criteria.kind == "attribute" && item.criteria.attribute.None?)
    ensures r.Success? ==>
      var b := r.value;
      b.id == item.id && b.bidType == GetBidType(item.criteria.kind) && b.collectionId == item.contract &&
      (b.tokenId.Some? <==> item.criteria.kind == "token") &&
      (b.tokenId.Some? ==> b.tokenId.value == TokenKey(item.contract, item.criteria.token.value.tokenId)) &&
      (b.attributeKey.Some? <==> item.criteria.kind == "attribute") &&
      (b.attributeValue.Some? <==> item.criteria.kind == "attribute") &&
      (b.attributeKey.Some? ==>
        b.attributeKey.value == item.criteria.attribute.value.attributeKey &&
        b.attributeValue.value == item.criteria.attribute.value.attributeValue) &&
      b.makerId == item.maker && b.takerId == item.taker &&
      b.quantityFilled == item.quantityFilled && b.quantityRemaining == item.quantityRemaining &&
      b.priceCurrency == item.priceCurrency && b.feeBps == item.feeBps &&
      b.status == Upper(item.status) && b.createdAt == item.createdAt &&
      b.expiresAt == item.validUntil * 1000 && b.validFrom == item.validFrom * 1000 &&
      b.marketplace == item.sourceDomain && b.updatedAt == item.updatedAt
  {
    var kind := item.criteria.kind;
    if kind == "token" && item.criteria.token.None? then Failure(MissingToken)
    else if kind == "attribute" && item.criteria.attribute.None? then Failure(MissingAttribute)
    else
      Success(Bid(
        item.id, item.maker, item.taker, GetBidType(kind), item.contract,
        if kind == "token" then Some(TokenKey(item.contract, item.criteria.token.value.tokenId)) else None,
        if kind == "attribute" then Some(item.criteria.attribute.value.attributeKey) else None,
        if kind == "attribute" then Some(item.criteria.attribute.value.attributeValue) else None,
        item.quantityFilled, item.quantityRemaining, item.priceCurrency, item.feeBps,
        Upper(item.status), item.createdAt, item.validUntil * 1000, item.validFrom * 1000,
        item.sourceDomain, item.updatedAt))
  }

  /** `mapAsk`: the token key is read whatever the criteria kind. */
  function MapAsk(item: RawOrder): (r: Result<Ask, MapError>)
    ensures r.Failure? <==> item.criteria.token.None?
    ensures r.Success? ==>
      var a := r.value;
      a.id == item.id && a.collectionId == item.contract &&
      a.tokenId == TokenKey(item.contract, item.criteria.token.value.tokenId) &&
      a.makerId == item.maker && a.takerId == item.taker &&
      a.quantityFilled == item.quantityFilled && a.quantityRemaining == item.quantityRemaining &&
      a.priceCurrency == item.priceCurrency && a.feeBps == item.feeBps &&
      a.status == Upper(item.status) && a.createdAt == item.createdAt &&
      a.expiresAt == item.validUntil * 1000 && a.validFrom == item.validFrom * 1000 &&
      a.marketplace == item.sourceDomain && a.updatedAt == item.updatedAt
  {
    if item.criteria.token.None? then Failure(MissingToken)
    else
      Success(Ask(
        item.id, item.maker, item.taker, item.contract,
        TokenKey(item.contract, item.criteria.token.value.tokenId),
        item.quantityFilled, item.quantityRemaining, item.priceCurrency, item.feeBps,
        Upper(item.status), item.createdAt, item.validUntil * 1000, item.validFrom * 1000,
        item.sourceDomain, item.updatedAt))
  }

  /** A mapped bid carries the field of its own type and nothing of the other. */
  lemma BidFieldsMatchType(item: RawOrder)
    requires MapBid(item).Success?
    ensures var b := MapBid(item).value;
      (b.bidType == TOKEN <==> b.tokenId.Some?) &&
      (b.bidType == ATTRIBUTE <==> b.attributeKey.Some?) &&
      !(b.tokenId.Some? && b.attributeKey.Some?)
  {
  }

  /** A token order maps to an ask and to a bid with the same token key. */
  lemma TokenOrderKeysAgree(item: RawOrder)
    requires item.criteria.kind == "token" && item.criteria.token.Some?
    ensures MapAsk(item).Success? && MapBid(item).Success?
    ensures MapBid(item).value.tokenId == Some(MapAsk(item).value.tokenId)
    ensures MapBid(item).value.bidType == TOKEN
  {
  }

  // ---------------------------------------------------------------------------
  // The extractors (getData of the two indexers)

  /** The asks indexer's filter: `item.criteria.kind === 'token'`. */
  predicate IsTokenOrder(item: RawOrder) {
    item.criteria.kind == "token"
  }

  function TokenOrders(orders: seq<RawOrder>): (r: seq<RawOrder>)
    ensures |r| <= |orders|
    ensures forall i :: 0 <= i < |r| ==> IsTokenOrder(r[i]) && r[i] in orders
  {
    if orders == [] then []
    else (if IsTokenOrder(orders[0]) then [orders[0]] else []) + TokenOrders(orders[1..])
  }

  /** Keeping token orders drops exactly the others: a token order is kept however often it occurs. */
  lemma {:induction false} TokenOrdersKeep(orders: seq<RawOrder>, x: RawOrder)
    ensures x in TokenOrders(orders) <==> x in orders && IsTokenOrder(x)
  {
    if orders != [] {
      TokenOrdersKeep(orders[1..], x);
      assert orders == [orders[0]] + orders[1..];
    }
  }

  /** The filter keeps order: filtering a concatenation is concatenating the filtered parts. */
  lemma {:induction false} TokenOrdersAppend(xs: seq<RawOrder>, ys: seq<RawOrder>)
    ensures TokenOrders(xs + ys) == TokenOrders(xs) + TokenOrders(ys)
    decreases |xs|
  {
    if xs == [] {
      assert xs + ys == ys;
    } else {
      var h := if IsTokenOrder(xs[0]) then [xs[0]] else [];
      assert (xs + ys)[0] == xs[0];
      assert (xs + ys)[1..] == xs[1..] + ys;
      TokenOrdersAppend(xs[1..], ys);
      assert TokenOrders(xs + ys) == h + (TokenOrders(xs[1..]) + TokenOrders(ys));
      assert TokenOrders(xs) == h + TokenOrders(xs[1..]);
    }
  }

  /** Every token order is kept as often as it occurs, and no other order is kept. */
  lemma {:induction false} TokenOrdersCount(orders: seq<RawOrder>, x: RawOrder)
    ensures multiset(TokenOrders(orders))[x] == (if IsTokenOrder(x) then multiset(orders)[x] else 0)
    decreases |orders|
  {
    if orders != [] {
      var h := if IsTokenOrder(orders[0]) then [orders[0]] else [];
      TokenOrdersCount(orders[1..], x);
      assert TokenOrders(orders) == h + TokenOrders(orders[1..]);
      assert multiset(TokenOrders(orders)) == multiset(h) + multiset(TokenOrders(orders[1..]));
      assert orders == [orders[0]] + orders[1..];
      assert multiset(orders) == multiset([orders[0]]) + multiset(orders[1..]);
    }
  }

  /** `Promise.all(orders.map(mapX))`: every order mapped in order, or the first failure. */
  function MapAll<T>(orders: seq<RawOrder>, map1: RawOrder -> Result<T, MapError>): (r: Result<seq<T>, MapError>)
    ensures r.Success? <==> forall i :: 0 <= i < |orders| ==> map1(orders[i]).Success?
    ensures r.Success? ==> |r.value| == |orders| && forall i :: 0 <= i < |orders| ==> r.value[i] == map1(orders[i]).value
  {
    if orders == [] then Success([])
    else match map1(orders[0])
      case Failure(e) => Failure(e)
      case Success(x) =>
        match MapAll(orders[1..], map1)
        case Failure(e) => Failure(e)
        case Success(xs) => Success([x] + xs)
  }

  /** The asks indexer's getData: token orders only, each through mapAsk. */
  function ExtractAsks(orders: seq<RawOrder>): Result<seq<Ask>, MapError>
  {
    MapAll(TokenOrders(orders), MapAsk)
  }

  /** The bids indexer's getData: every order through mapBid. */
  function ExtractBids(orders: seq<RawOrder>): Result<seq<Bid>, MapError>
  {
    MapAll(orders, MapBid)
  }

  /**
   * The asks extractor fails exactly when a token order lacks its token data,
   * and otherwise gives one ask per token order, in order, keyed by contract
   * and token id.
   */
  lemma ExtractAsksSpec(orders: seq<RawOrder>)
    ensures var r := ExtractAsks(orders);
      (r.Success? <==> forall x :: x in orders && IsTokenOrder(x) ==> x.criteria.token.Some?) &&
      (r.Success? ==>
        |r.value| == |TokenOrders(orders)| &&
        forall i :: 0 <= i < |r.value| ==>
          var x := TokenOrders(orders)[i];
          r.value[i].id == x.id && r.value[i].tokenId == TokenKey(x.contract, x.criteria.token.value.tokenId))
  {
    var kept := TokenOrders(orders);
    forall x | x in orders && IsTokenOrder(x)
      ensures x in kept
    {
      TokenOrdersKeep(orders, x);
    }
  }

  /** The bids extractor fails exactly when some order's token or attribute data is missing. */
  lemma ExtractBidsSpec(orders: seq<RawOrder>)
    ensures var r := ExtractBids(orders);
      (r.Success? <==> forall i :: 0 <= i < |orders| ==> MapBid(orders[i]).Success?) &&
      (r.Success? ==> |r.value| == |orders| && forall i :: 0 <= i < |orders| ==>
        r.value[i].id == orders[i].id && r.value[i].bidType == GetBidType(orders[i].criteria.kind))
  {
  }

  /** What the workers read of a mapped order. */
  function AskItem(a: Ask): Item { Item(a.id, a.updatedAt) }
  function BidItem(b: Bid): Item { Item(b.id, b.updatedAt) }
}
