/** The matching engine: price-time priority and the single match of a market order. */
module Matching {
  import opened Wrappers
  import opened Cfd

  datatype OrderType = Market | Limit

  datatype Order = Order(
    id: nat, trader: nat, orderType: OrderType, direction: Direction, quantity: real, price: Positive, timestamp: int
  )

  /** One side's record of a match: the order it was matched with. */
  datatype Match = Match(orderId: nat, quantity: real, trader: nat, executionPrice: Positive, matchingFee: nat)

  datatype TraderMatchParams = TraderMatchParams(trader: nat, orderId: nat, matches: seq<Match>)

  datatype MatchParams = MatchParams(taker: TraderMatchParams, makers: seq<TraderMatchParams>)

  datatype MatchError = MoreThanOneMatch

  // ---------------------------------------------------------------- priority

  /** Whether `a` may stand before `b`: by price as the market order wants it, then by time. */
  predicate Before(a: Order, b: Order, direction: Direction)
  {
    if a.price == b.price then a.timestamp <= b.timestamp
    else if direction.Long? then a.price < b.price
    else a.price > b.price
  }

  predicate IsSorted(orders: seq<Order>, direction: Direction)
  {
    forall i, j :: 0 <= i < j < |orders| ==> Before(orders[i], orders[j], direction)
  }

  predicate Tie(a: Order, b: Order)
  {
    a.price == b.price && a.timestamp == b.timestamp
  }

  /** The orders with the priority of `like`, in the order in which they stand. */
  function Ties(orders: seq<Order>, like: Order): seq<Order>
  {
    if |orders| == 0 then []
    else (if Tie(orders[0], like) then [orders[0]] else []) + Ties(orders[1..], like)
  }

  /** Puts an order in front of the orders it has priority over or ties with. */
  function InsertOrder(order: Order, sorted: seq<Order>, direction: Direction): (result: seq<Order>)
    ensures multiset(result) == multiset(sorted) + multiset{order}
  {
    if |sorted| == 0 || Before(order, sorted[0], direction) then
      [order] + sorted
    else
      assert sorted == [sorted[0]] + sorted[1..];
      [sorted[0]] + InsertOrder(order, sorted[1..], direction)
  }

  /** `sort_orders`: a stable sort. */
  function SortOrders(orders: seq<Order>, direction: Direction): (sorted: seq<Order>)
    ensures multiset(sorted) == multiset(orders)
  {
    if |orders| == 0 then []
    else
      assert orders == [orders[0]] + orders[1..];
      InsertOrder(orders[0], SortOrders(orders[1..], direction), direction)
  }

  lemma MemberOfInsert(order: Order, sorted: seq<Order>, direction: Direction, x: Order)
    requires x in InsertOrder(order, sorted, direction)
    ensures x == order || x in sorted
  {
    assert x in multiset(InsertOrder(order, sorted, direction));
  }

  lemma {:induction false} InsertKeepsSorted(order: Order, sorted: seq<Order>, direction: Direction)
    requires IsSorted(sorted, direction)
    ensures IsSorted(InsertOrder(order, sorted, direction), direction)
  {
    if |sorted| > 0 && !Before(order, sorted[0], direction) {
      InsertKeepsSorted(order, sorted[1..], direction);
      var rest := InsertOrder(order, sorted[1..], direction);
      forall j | 0 <= j < |rest| ensures Before(sorted[0], rest[j], direction) {
        MemberOfInsert(order, sorted[1..], direction, rest[j]);
      }
    }
  }

  lemma {:induction false} SortOrdersSorts(orders: seq<Order>, direction: Direction)
    ensures IsSorted(SortOrders(orders, direction), direction)
  {
    if |orders| > 0 {
      SortOrdersSorts(orders[1..], direction);
      InsertKeepsSorted(orders[0], SortOrders(orders[1..], direction), direction);
    }
  }

  lemma {:induction false} InsertKeepsTies(order: Order, sorted: seq<Order>, direction: Direction, like: Order)
    ensures Ties(InsertOrder(order, sorted, direction), like)
            == (if Tie(order, like) then [order] else []) + Ties(sorted, like)
  {
    if |sorted| == 0 || Before(order, sorted[0], direction) {
      assert ([order] + sorted)[1..] == sorted;
    } else {
      var rest := InsertOrder(order, sorted[1..], direction);
      assert ([sorted[0]] + rest)[1..] == rest;
      assert !Tie(order, like) || !Tie(sorted[0], like);
      InsertKeepsTies(order, sorted[1..], direction, like);
    }
  }

  /** Orders of equal price and time keep their places. */
  lemma {:induction false} SortOrdersIsStable(orders: seq<Order>, direction: Direction, like: Order)
    ensures Ties(SortOrders(orders, direction), like) == Ties(orders, like)
  {
    if |orders| > 0 {
      SortOrdersIsStable(orders[1..], direction, like);
      InsertKeepsTies(orders[0], SortOrders(orders[1..], direction), direction, like);
    }
  }

  // ---------------------------------------------------------------- the market order

  function OppositeOrders(orders: seq<Order>, direction: Direction): (book: seq<Order>)
    ensures forall o :: o in book <==> o in orders && o.direction != direction
    ensures forall o :: multiset(book)[o] == if o.direction != direction then multiset(orders)[o] else 0
  {
    if |orders| == 0 then []
    else
      assert orders == [orders[0]] + orders[1..];
      (if orders[0].direction != direction then [orders[0]] else []) + OppositeOrders(orders[1..], direction)
  }

  /** They keep their order: the opposite orders of a list are those of its first part and then those of the rest. */
  lemma {:induction false} OppositeOrdersKeepOrder(first: seq<Order>, rest: seq<Order>, direction: Direction)
    ensures OppositeOrders(first + rest, direction)
            == OppositeOrders(first, direction) + OppositeOrders(rest, direction)
  {
    if |first| == 0 {
      assert first + rest == rest;
    } else {
      assert (first + rest)[1..] == first[1..] + rest;
      OppositeOrdersKeepOrder(first[1..], rest, direction);
    }
  }

  function QuantityOf(orders: seq<Order>): real
  {
    if |orders| == 0 then 0.0 else QuantityOf(orders[..|orders| - 1]) + orders[|orders| - 1].quantity
  }

  lemma QuantityOfPrefix(orders: seq<Order>, n: nat)
    requires n < |orders|
    ensures QuantityOf(orders[..n + 1]) == QuantityOf(orders[..n]) + orders[n].quantity
  {
    assert orders[..n + 1][..n] == orders[..n];
  }

  /** None of the first `n` prefixes of the book covers the quantity. */
  predicate NoneCovers(book: seq<Order>, n: nat, quantity: real)
    requires n <= |book|
  {
    forall m :: 1 <= m <= n ==> QuantityOf(book[..m]) < quantity
  }

  /** `n` is the number of orders in the shortest non-empty prefix that covers the quantity, or of all orders. */
  predicate IsShortestCover(book: seq<Order>, n: nat, quantity: real)
  {
    && n <= |book|
    && (n == 0 ==> |book| == 0)
    && (n < |book| ==> QuantityOf(book[..n]) >= quantity)
    && (n > 0 ==> NoneCovers(book, n - 1, quantity))
  }

  /** The fee of a match: the rate times the value in bitcoin, in whole satoshis, half a satoshi rounded up. A negative
      fee, out of a negative rate, falls back to zero. */
  function MatchingFee(quantity: real, price: Positive, feePercent: real): (fee: nat)
    ensures var exact := quantity / price * feePercent * SATS_PER_BTC;
            if exact < 0.0 then fee == 0 else -0.5 < fee as real - exact <= 0.5
  {
    Max(0, RoundAwayFromZero(quantity / price * feePercent * SATS_PER_BTC))
  }

  /** The cheapest order for a buyer and the dearest for a seller, and the oldest of those. */
  predicate IsBest(best: Order, book: seq<Order>, direction: Direction)
  {
    && best in book
    && forall o :: o in book ==>
         && (direction.Long? ==> best.price <= o.price)
         && (direction.Short? ==> best.price >= o.price)
         && (best.price == o.price ==> best.timestamp <= o.timestamp)
  }

  /** The first order after sorting has priority over all others, and among those that tie with it it was listed
      first. */
  lemma FirstIsBest(book: seq<Order>, direction: Direction)
    requires |book| > 0
    ensures |SortOrders(book, direction)| == |book|
    ensures IsBest(SortOrders(book, direction)[0], book, direction)
    ensures Ties(book, SortOrders(book, direction)[0]) != []
            && Ties(book, SortOrders(book, direction)[0])[0] == SortOrders(book, direction)[0]
  {
    var sorted := SortOrders(book, direction);
    assert |multiset(sorted)| == |multiset(book)|;
    SortOrdersSorts(book, direction);
    assert sorted[0] in multiset(sorted);
    forall o | o in book ensures Before(sorted[0], o, direction) {
      assert o in multiset(sorted);
      var k :| 0 <= k < |sorted| && sorted[k] == o;
    }
    SortOrdersIsStable(book, direction, sorted[0]);
  }

  /** The maker does not depend on how the orders are listed, unless two of them tie in price and time. */
  lemma BestIsUnique(book: seq<Order>, listed: seq<Order>, direction: Direction)
    requires |book| > 0 && multiset(book) == multiset(listed)
    requires forall i, j :: 0 <= i < j < |book| ==> !Tie(book[i], book[j])
    ensures |listed| == |book| && SortOrders(book, direction)[0] == SortOrders(listed, direction)[0]
  {
    assert |multiset(book)| == |multiset(listed)|;
    FirstIsBest(book, direction);
    FirstIsBest(listed, direction);
    var a, b := SortOrders(book, direction)[0], SortOrders(listed, direction)[0];
    assert b in multiset(listed);
    assert b in book && Before(a, b, direction);
    assert a in multiset(book);
    assert a in listed && Before(b, a, direction);
    assert Tie(a, b);
  }

  /** What a match of `order` with `maker` is recorded as. Both sides agree on quantity, price and fee, and each
      names the other. */
  predicate RecordsMatch(params: MatchParams, order: Order, maker: Order, feePercent: real)
  {
    var fee := MatchingFee(order.quantity, maker.price, feePercent);
    && params.taker == TraderMatchParams(order.trader, order.id,
                                         [Match(maker.id, order.quantity, maker.trader, maker.price, fee)])
    && params.makers == [TraderMatchParams(maker.trader, maker.id,
                                           [Match(order.id, order.quantity, order.trader, maker.price, fee)])]
  }

  /** Takes orders off the front of the book until they cover the quantity; `taken` counts them. */
  method ConsumeOrders(book: seq<Order>, quantity: real) returns (matched: seq<Order>)
    ensures matched <= book && IsShortestCover(book, |matched|, quantity)
  {
    var taken, remaining := 0, quantity;
    while taken < |book|
      invariant taken <= |book|
      invariant remaining == quantity - QuantityOf(book[..taken])
      invariant taken > 0 ==> remaining > 0.0
      invariant NoneCovers(book, taken, quantity)
    {
      QuantityOfPrefix(book, taken);
      remaining, taken := remaining - book[taken].quantity, taken + 1;
      if remaining <= 0.0 { break; }
    }
    return book[..taken];
  }

  /** A single order is consumed exactly when the first one covers the quantity or is the only one. */
  lemma OneOrderCovers(book: seq<Order>, n: nat, quantity: real)
    requires |book| > 0 && IsShortestCover(book, n, quantity)
    ensures n == 1 <==> book[0].quantity >= quantity || |book| == 1
  {
    assert book[..1] == [book[0]] && QuantityOf([book[0]]) == book[0].quantity by {
      assert [book[0]][..0] == [];
    }
  }

  /** `match_order`: a market order is matched exactly when the best opposite order covers it or is the only one. */
  method MatchOrder(order: Order, candidates: seq<Order>, feePercent: real)
    returns (result: Result<Option<MatchParams>, MatchError>)
    ensures order.orderType.Limit? ==> result == Ok(None)
    ensures order.orderType.Market? ==>
              var book := SortOrders(OppositeOrders(candidates, order.direction), order.direction);
              if |book| == 0 then result == Ok(None)
              else if book[0].quantity >= order.quantity || |book| == 1 then
                && result.Ok? && result.value.Some?
                && RecordsMatch(result.value.value, order, book[0], feePercent)
                && IsBest(book[0], OppositeOrders(candidates, order.direction), order.direction)
              else result == Err(MoreThanOneMatch)
  {
    if order.orderType.Limit? { return Ok(None); }
    var opposite := OppositeOrders(candidates, order.direction);
    var matched := ConsumeOrders(SortOrders(opposite, order.direction), order.quantity);
    if |matched| > 0 {
      OneOrderCovers(SortOrders(opposite, order.direction), |matched|, order.quantity);
      assert |multiset(SortOrders(opposite, order.direction))| == |multiset(opposite)|;
      FirstIsBest(opposite, order.direction);
    }
    if |matched| > 1 { return Err(MoreThanOneMatch); }
    if |matched| == 0 { return Ok(None); }
    var maker := matched[0];
    var fee := MatchingFee(order.quantity, maker.price, feePercent);
    return Ok(Some(MatchParams(
      TraderMatchParams(order.trader, order.id, [Match(maker.id, order.quantity, maker.trader, maker.price, fee)]),
      [TraderMatchParams(maker.trader, maker.id, [Match(order.id, order.quantity, order.trader, maker.price, fee)])])));
  }
}
