/** The average entry price over many increases, and how far the stored margin drifts from it. */
module Averages {
  import opened Wrappers
  import opened Cfd
  import opened Positions
  import opened Trade
  import Channel
  import ChannelRuns
  import Reals

  /** One execution of contracts at a price, with its order-matching fee. */
  datatype Fill = Fill(quantity: Positive, price: Positive, fee: nat)

  function Amount(fill: Fill): real
  {
    fill.quantity
  }

  /** The bitcoin value of a fill at its own price. */
  function Nominal(fill: Fill): (value: real)
    ensures value > 0.0
  {
    Reals.DivPositive(fill.quantity, fill.price);
    fill.quantity / fill.price
  }

  function Total(fills: seq<Fill>, of: Fill -> real): real
  {
    if |fills| == 0 then 0.0 else of(fills[0]) + Total(fills[1..], of)
  }

  function TotalQuantity(fills: seq<Fill>): real
  {
    Total(fills, Amount)
  }

  function TotalNominal(fills: seq<Fill>): real
  {
    Total(fills, Nominal)
  }

  lemma {:induction false} TotalPositive(fills: seq<Fill>, of: Fill -> real)
    requires forall fill :: of(fill) > 0.0
    ensures Total(fills, of) >= 0.0
    ensures |fills| > 0 ==> Total(fills, of) > 0.0
  {
    if |fills| == 0 {
    } else {
      TotalPositive(fills[1..], of);
    }
  }

  /** `average_entry_price` over positions, and `average_execution_price` over matches. */
  function AverageEntryPrice(fills: seq<Fill>): real
  {
    if |fills| == 0 then 0.0
    else if |fills| == 1 then fills[0].price
    else
      TotalPositive(fills, Nominal);
      TotalQuantity(fills) / TotalNominal(fills)
  }

  /** The single-fill shortcut agrees with the formula. */
  lemma AverageIsQuotient(fills: seq<Fill>)
    requires |fills| > 0
    ensures TotalQuantity(fills) > 0.0 && TotalNominal(fills) > 0.0
    ensures AverageEntryPrice(fills) == TotalQuantity(fills) / TotalNominal(fills)
  {
    TotalPositive(fills, Nominal);
    TotalPositive(fills, Amount);
    if |fills| == 1 {
      assert TotalNominal(fills[1..]) == 0.0 && TotalQuantity(fills[1..]) == 0.0;
      Reals.QuotientOfQuotient(fills[0].quantity, fills[0].price);
    }
  }

  // ---------------------------------------------------------------- order of the fills

  lemma {:induction false} TotalSplit(a: seq<Fill>, b: seq<Fill>, of: Fill -> real)
    ensures Total(a + b, of) == Total(a, of) + Total(b, of)
  {
    if |a| == 0 {
      assert a + b == b;
    } else {
      assert (a + b)[1..] == a[1..] + b;
      TotalSplit(a[1..], b, of);
    }
  }

  lemma RemoveAt(fills: seq<Fill>, i: nat)
    requires i < |fills|
    ensures multiset(fills[..i] + fills[i + 1..]) == multiset(fills) - multiset{fills[i]}
  {
    assert fills == fills[..i] + [fills[i]] + fills[i + 1..];
  }

  lemma TotalWithout(fills: seq<Fill>, i: nat, of: Fill -> real)
    requires i < |fills|
    ensures Total(fills, of) == of(fills[i]) + Total(fills[..i] + fills[i + 1..], of)
  {
    var tail := fills[i..];
    assert fills == fills[..i] + tail;
    assert tail[0] == fills[i] && tail[1..] == fills[i + 1..];
    TotalSplit(fills[..i], tail, of);
    TotalSplit(fills[..i], fills[i + 1..], of);
  }

  lemma MatchFirst(a: seq<Fill>, b: seq<Fill>) returns (i: nat)
    requires |a| > 0 && multiset(a) == multiset(b)
    ensures i < |b| && b[i] == a[0]
    ensures multiset(a[1..]) == multiset(b[..i] + b[i + 1..])
  {
    assert a[0] in multiset(b);
    i :| 0 <= i < |b| && b[i] == a[0];
    RemoveAt(b, i);
    assert a == [a[0]] + a[1..];
  }

  lemma {:induction false} TotalIgnoresOrder(a: seq<Fill>, b: seq<Fill>, of: Fill -> real)
    requires multiset(a) == multiset(b)
    ensures Total(a, of) == Total(b, of)
  {
    assert |multiset(a)| == |a| && |multiset(b)| == |b|;
    if |a| == 0 {
    } else {
      var i := MatchFirst(a, b);
      TotalIgnoresOrder(a[1..], b[..i] + b[i + 1..], of);
      TotalWithout(b, i, of);
    }
  }

  /** The average does not depend on the order of the executions. */
  lemma AverageIgnoresOrder(a: seq<Fill>, b: seq<Fill>)
    requires multiset(a) == multiset(b)
    ensures AverageEntryPrice(a) == AverageEntryPrice(b)
  {
    TotalIgnoresOrder(a, b, Amount);
    TotalIgnoresOrder(a, b, Nominal);
    assert |a| == |multiset(a)| == |multiset(b)| == |b|;
    if |a| > 0 {
      AverageIsQuotient(a);
      AverageIsQuotient(b);
    }
  }

  lemma {:induction false} TotalsBelow(fills: seq<Fill>, high: Positive)
    requires forall i :: 0 <= i < |fills| ==> fills[i].price <= high
    ensures TotalQuantity(fills) <= TotalNominal(fills) * high
  {
    if |fills| == 0 {
    } else {
      TotalsBelow(fills[1..], high);
      Reals.MulMono(fills[0].price, high, Nominal(fills[0]));
      Reals.DivCancel(fills[0].quantity, fills[0].price);
      Reals.MulDistributes(Nominal(fills[0]), TotalNominal(fills[1..]), high);
    }
  }

  lemma {:induction false} TotalsAbove(fills: seq<Fill>, low: Positive)
    requires forall i :: 0 <= i < |fills| ==> low <= fills[i].price
    ensures TotalNominal(fills) * low <= TotalQuantity(fills)
  {
    if |fills| == 0 {
    } else {
      TotalsAbove(fills[1..], low);
      Reals.MulMono(low, fills[0].price, Nominal(fills[0]));
      Reals.DivCancel(fills[0].quantity, fills[0].price);
      Reals.MulDistributes(Nominal(fills[0]), TotalNominal(fills[1..]), low);
    }
  }

  /** The average lies between the least and the greatest price. */
  lemma AverageIsBetween(fills: seq<Fill>, low: Positive, high: Positive)
    requires |fills| > 0
    requires forall i :: 0 <= i < |fills| ==> low <= fills[i].price <= high
    ensures low <= AverageEntryPrice(fills) <= high
  {
    AverageIsQuotient(fills);
    TotalsBelow(fills, high);
    TotalsAbove(fills, low);
    Reals.QuotientBetween(TotalQuantity(fills), TotalNominal(fills), low, high);
  }

  // ---------------------------------------------------------------- increases

  /** The row after one increase without funding fees. */
  function IncreaseRow(row: Position, fill: Fill): Position
  {
    row.(contracts := row.contracts + fill.quantity,
         averageEntryPrice := AveragePrice(row.contracts, row.averageEntryPrice, fill.quantity, fill.price),
         traderMargin := row.traderMargin + CalculateMargin(fill.price, fill.quantity, row.traderLeverage),
         coordinatorMargin :=
           row.coordinatorMargin + CalculateMargin(fill.price, fill.quantity, row.coordinatorLeverage),
         orderMatchingFees := row.orderMatchingFees + fill.fee)
  }

  function FillOf(op: Channel.Op): Fill
    requires op.OrderMatched?
  {
    Fill(op.trade.quantity, op.trade.price, op.trade.matchingFee)
  }

  /** A matched order in the position's own direction, without outstanding funding fees. */
  predicate IsIncrease(op: Channel.Op, direction: Direction)
  {
    op.OrderMatched? && Channel.NetFundingFee(op.fundingEvents).Zero? && op.trade.direction == direction
  }

  lemma IncreaseIsChosen(position: Position, trade: TradeParams)
    requires trade.direction == position.traderDirection
    ensures DetermineTradeAction(position.SignedContracts(), trade.SignedContracts(), trade.price)
            == ResizePosition(Increase(trade.quantity, trade.price))
  {
    ProductSign(position.SignedContracts(), trade.SignedContracts());
  }

  /** A channel that increases its position really stores that row. */
  lemma IncreaseStoresRow(channel: Channel.Channel, op: Channel.Op)
    requires channel.state.Established? && IsIncrease(op, channel.state.position.traderDirection)
    ensures Channel.Step(channel, op).Ok? ==>
              var after := Channel.Next(channel, op);
              && after.state.Established?
              && after.state.position
                 == IncreaseRow(channel.state.position, FillOf(op))
  {
    IncreaseIsChosen(channel.state.position, op.trade);
  }

  function IncreaseAll(row: Position, fills: seq<Fill>): Position
    decreases |fills|
  {
    if |fills| == 0 then row else IncreaseAll(IncreaseRow(row, fills[0]), fills[1..])
  }

  function FillsOf(ops: seq<Channel.Op>): seq<Fill>
    requires forall i :: 0 <= i < |ops| ==> ops[i].OrderMatched?
  {
    seq(|ops|, i requires 0 <= i < |ops| => FillOf(ops[i]))
  }

  /** No increase of the run is refused for lack of funds. */
  predicate AllGoThrough(channel: Channel.Channel, ops: seq<Channel.Op>)
    decreases |ops|
  {
    |ops| == 0 || (Channel.Step(channel, ops[0]).Ok? && AllGoThrough(Channel.Next(channel, ops[0]), ops[1..]))
  }

  lemma {:induction false} RunOfIncreasesStoresRow(channel: Channel.Channel, ops: seq<Channel.Op>)
    requires channel.state.Established? && AllGoThrough(channel, ops)
    requires forall i :: 0 <= i < |ops|
               ==> ops[i].OrderMatched? && IsIncrease(ops[i], channel.state.position.traderDirection)
    ensures var after := Channel.Run(channel, ops);
            after.state.Established? && after.state.position == IncreaseAll(channel.state.position, FillsOf(ops))
    decreases |ops|
  {
    if |ops| == 0 {
    } else {
      IncreaseStoresRow(channel, ops[0]);
      RunOfIncreasesStoresRow(Channel.Next(channel, ops[0]), ops[1..]);
      assert FillsOf(ops)[1..] == FillsOf(ops[1..]);
    }
  }

  function TotalMargin(fills: seq<Fill>, leverage: Positive): nat
  {
    if |fills| == 0 then 0
    else CalculateMargin(fills[0].price, fills[0].quantity, leverage) + TotalMargin(fills[1..], leverage)
  }

  lemma {:induction false} IncreasesAddUp(row: Position, fills: seq<Fill>)
    ensures var after := IncreaseAll(row, fills);
            && after.contracts == row.contracts + TotalQuantity(fills)
            && after.contracts / after.averageEntryPrice == row.contracts / row.averageEntryPrice + TotalNominal(fills)
            && after.traderLeverage == row.traderLeverage && after.coordinatorLeverage == row.coordinatorLeverage
            && after.traderMargin == row.traderMargin + TotalMargin(fills, row.traderLeverage)
            && after.coordinatorMargin == row.coordinatorMargin + TotalMargin(fills, row.coordinatorLeverage)
    decreases |fills|
  {
    if |fills| == 0 {
    } else {
      IncreasesAddUp(IncreaseRow(row, fills[0]), fills[1..]);
    }
  }

  /** Increasing step by step stores the average over all the fills, the first one included. */
  lemma StoredAverageIsOverall(trade: TradeParams, fills: seq<Fill>)
    ensures var all := [Fill(trade.quantity, trade.price, trade.matchingFee)] + fills;
            && IncreaseAll(trade.NewPosition(), fills).averageEntryPrice == AverageEntryPrice(all)
            && IncreaseAll(trade.NewPosition(), fills).contracts == TotalQuantity(all)
  {
    var first := Fill(trade.quantity, trade.price, trade.matchingFee);
    var all := [first] + fills;
    assert all[1..] == fills;
    var after := IncreaseAll(trade.NewPosition(), fills);
    IncreasesAddUp(trade.NewPosition(), fills);
    AverageIsQuotient(all);
    assert TotalNominal(all) == after.contracts / after.averageEntryPrice;
    Reals.QuotientOfQuotient(after.contracts, after.averageEntryPrice);
  }

  // ---------------------------------------------------------------- margin drift

  lemma ExactMarginOfNominal(price: Positive, quantity: Quantity, leverage: Positive)
    ensures ExactMargin(price, quantity, leverage) == quantity / price / leverage * SATS_PER_BTC
  {
    Reals.DivMul(quantity, price, leverage);
  }

  lemma {:induction false} TotalMarginNearExact(fills: seq<Fill>, leverage: Positive)
    ensures var exact := TotalNominal(fills) / leverage * SATS_PER_BTC;
            -(|fills| as real) / 2.0 <= TotalMargin(fills, leverage) as real - exact <= |fills| as real / 2.0
  {
    if |fills| == 0 {
    } else {
      var fill := fills[0];
      TotalMarginNearExact(fills[1..], leverage);
      ExactMarginOfNominal(fill.price, fill.quantity, leverage);
      Reals.DivAdd(fill.quantity / fill.price, TotalNominal(fills[1..]), leverage);
    }
  }

  /** After an opening and `|fills|` increases at fixed leverages, each stored margin is a sum of separately
      rounded margins: it is within (|fills| + 2) / 2 satoshis of the margin recomputed at the average price. */
  lemma StoredMarginDrift(trade: TradeParams, fills: seq<Fill>)
    ensures var after := IncreaseAll(trade.NewPosition(), fills);
            var bound := (|fills| + 2) as real / 2.0;
            && -bound <= (after.traderMargin - after.RecomputedTraderMargin()) as real <= bound
            && -bound <= (after.coordinatorMargin - after.RecomputedCoordinatorMargin()) as real <= bound
  {
    var row := trade.NewPosition();
    var after := IncreaseAll(row, fills);
    IncreasesAddUp(row, fills);
    MarginDriftAt(trade, fills, after, trade.leverage);
    MarginDriftAt(trade, fills, after, COORDINATOR_LEVERAGE);
  }

  lemma MarginDriftAt(trade: TradeParams, fills: seq<Fill>, after: Position, leverage: Positive)
    requires after.contracts / after.averageEntryPrice == trade.quantity / trade.price + TotalNominal(fills)
    ensures var stored := CalculateMargin(trade.price, trade.quantity, leverage) + TotalMargin(fills, leverage);
            var recomputed := CalculateMargin(after.averageEntryPrice, after.contracts, leverage);
            var bound := (|fills| + 2) as real / 2.0;
            -bound <= (stored - recomputed) as real <= bound
  {
    ExactMarginOfNominal(trade.price, trade.quantity, leverage);
    ExactMarginOfNominal(after.averageEntryPrice, after.contracts, leverage);
    TotalMarginNearExact(fills, leverage);
    Reals.DivAdd(trade.quantity / trade.price, TotalNominal(fills), leverage);
  }

  // ---------------------------------------------------------------- increases with an outstanding funding fee

  /** The bitcoin value of the whole position relative to its value before. */
  function Growth(before: Position, after: Position): real
  {
    Reals.DivPositive(before.contracts, before.averageEntryPrice);
    (after.contracts / after.averageEntryPrice) / (before.contracts / before.averageEntryPrice)
  }

  lemma ScaledExactMargin(growth: real, nominal: real, scaled: real, leverage: Positive)
    requires nominal != 0.0 && growth == scaled / nominal
    ensures growth * (nominal / leverage * SATS_PER_BTC) == scaled / leverage * SATS_PER_BTC
  {
    Reals.DivScale(nominal, growth, leverage);
    Reals.DivCancel(scaled, nominal);
    Reals.MulAssociates(growth, nominal / leverage, SATS_PER_BTC);
  }

  /** Up to one satoshi, `drift` is what `margin` lacks of the margin at that leverage, scaled up as the position is. */
  predicate IsScaledLack(before: Position, after: Position, leverage: Positive, margin: nat, drift: int)
  {
    var lack := ExactMargin(before.averageEntryPrice, before.contracts, leverage) - margin as real;
    -1.0 <= drift as real + Growth(before, after) * lack <= 1.0
  }

  /** A margin that its own leverage stands for exactly, increased at that leverage, against the margin of the whole
      at another leverage. */
  lemma IncreasedMarginDrift(
    before: Position, after: Position, extra: Positive, price: Positive, margin: nat,
    leverage: Positive, other: Positive
  )
    requires ExactMargin(before.averageEntryPrice, before.contracts, leverage) == margin as real
    requires after.contracts / after.averageEntryPrice == before.contracts / before.averageEntryPrice + extra / price
    ensures IsScaledLack(before, after, other, margin,
                         margin + CalculateMargin(price, extra, leverage)
                         - CalculateMargin(after.averageEntryPrice, after.contracts, other))
  {
    var growth := Growth(before, after);
    var nominal := before.contracts / before.averageEntryPrice;
    var whole := after.contracts / after.averageEntryPrice;
    Reals.DivPositive(before.contracts, before.averageEntryPrice);
    ExactMarginOfNominal(before.averageEntryPrice, before.contracts, leverage);
    ExactMarginOfNominal(before.averageEntryPrice, before.contracts, other);
    ExactMarginOfNominal(after.averageEntryPrice, after.contracts, other);
    ExactMarginOfNominal(price, extra, leverage);
    ScaledExactMargin(growth, nominal, whole, leverage);
    ScaledExactMargin(growth, nominal, whole, other);
    Reals.DivAdd(nominal, extra / price, leverage);
    var lack := ExactMargin(before.averageEntryPrice, before.contracts, other) - margin as real;
    assert growth * lack == growth * ExactMargin(before.averageEntryPrice, before.contracts, other)
                           - growth * margin as real;
  }

  /** An increase in a channel, whatever funding fee is outstanding. */
  lemma FundedIncrease(channel: Channel.Channel, op: Channel.Op)
    requires channel.state.Established? && op.OrderMatched? && Channel.Step(channel, op).Ok?
    requires op.trade.direction == channel.state.position.traderDirection
    ensures var before := channel.state.position;
            var funded := ChannelRuns.Funded(channel, op).state.position;
            var next := Channel.Next(channel, op);
            && next.state.Established?
            && var after := next.state.position;
               && after.contracts == before.contracts + op.trade.quantity
               && after.averageEntryPrice
                  == AveragePrice(before.contracts, before.averageEntryPrice, op.trade.quantity, op.trade.price)
               && after.coordinatorMargin
                  == funded.coordinatorMargin
                     + CalculateMargin(op.trade.price, op.trade.quantity, funded.coordinatorLeverage)
               && after.traderMargin
                  == funded.traderMargin + CalculateMargin(op.trade.price, op.trade.quantity, funded.traderLeverage)
               && after.coordinatorLeverage == before.coordinatorLeverage
               && after.traderLeverage == before.traderLeverage
  {
    IncreaseIsChosen(channel.state.position, op.trade);
  }

  /** The stored margin of the side that paid a funding fee falls short of the one that its stored leverage stands for
      by that fee and more: the fee is scaled up, to the satoshi, as the increase scales up the position. */
  lemma IncreaseScalesFundingFee(channel: Channel.Channel, op: Channel.Op)
    requires channel.state.Established? && op.OrderMatched? && Channel.Step(channel, op).Ok?
    requires op.trade.direction == channel.state.position.traderDirection
    requires var fee := Channel.NetFundingFee(op.fundingEvents);
             !fee.Zero? && fee.amount < channel.state.position.PayerMargin(fee)
    ensures var fee := Channel.NetFundingFee(op.fundingEvents);
            var before := channel.state.position;
            var next := Channel.Next(channel, op);
            && next.state.Established?
            && var after := next.state.position;
               && (fee.TraderPays? ==>
                     IsScaledLack(before, after, before.traderLeverage, before.traderMargin - fee.amount,
                                  after.traderMargin - after.RecomputedTraderMargin()))
               && (fee.CoordinatorPays? ==>
                     IsScaledLack(before, after, before.coordinatorLeverage, before.coordinatorMargin - fee.amount,
                                  after.coordinatorMargin - after.RecomputedCoordinatorMargin()))
  {
    var fee := Channel.NetFundingFee(op.fundingEvents);
    var before := channel.state.position;
    var funded := ChannelRuns.Funded(channel, op).state.position;
    FundedIncrease(channel, op);
    var after := Channel.Next(channel, op).state.position;
    if fee.TraderPays? {
      IncreasedMarginDrift(before, after, op.trade.quantity, op.trade.price, funded.traderMargin, funded.traderLeverage,
                           before.traderLeverage);
    } else {
      IncreasedMarginDrift(before, after, op.trade.quantity, op.trade.price, funded.coordinatorMargin,
                           funded.coordinatorLeverage, before.coordinatorLeverage);
    }
  }
}
