/** Why a decrease between the two bankruptcy prices cannot pay out more than it releases. */
module Bankruptcy {
  import opened Wrappers
  import opened Cfd
  import opened Positions
  import opened Trade
  import Channel
  import ChannelRuns
  import Reals

  /** The price lies between the prices at which the long and the short side would have lost their margin. */
  predicate WithinBankruptcyPrices(position: Position, price: Positive)
    requires position.traderLeverage >= 1.0 && position.coordinatorLeverage >= 1.0
  {
    var (long, short) := if position.traderDirection.Long?
                         then (position.traderLeverage, position.coordinatorLeverage)
                         else (position.coordinatorLeverage, position.traderLeverage);
    LongBankruptcyPrice(long, position.averageEntryPrice) <= price
    <= ShortBankruptcyPrice(short, position.averageEntryPrice)
  }

  lemma Rearrange(x: real, y: real, z: real)
    ensures x * y * z == x * (y * z) == y * z * x
  {
  }

  /** A long gains at most the margin of a short with leverage `l` exactly up to the short's bankruptcy price. */
  lemma LongGainBoundedIff(o: Positive, p: Positive, c: Positive, l: Positive)
    ensures o / p - o / c <= o / p / l <==> c * (l - 1.0) <= p * l
  {
    var a, b, m := o / p, o / c, o / p / l;
    Quotients(o, p, c, l);
    Rearrange(c, l - 1.0, m);
    Rearrange(p, l, m);
    Reals.MulDistributes(l, -1.0, m);
    ScaledOrder(a - m, b, c);
    ScaledOrder(c * (l - 1.0), p * l, m);
  }

  /** A long with leverage `l` loses at most its own margin exactly down to its bankruptcy price. */
  lemma LongLossBoundedIff(o: Positive, p: Positive, c: Positive, l: Positive)
    ensures o / c - o / p <= o / p / l <==> p * l <= c * (l + 1.0)
  {
    var a, b, m := o / p, o / c, o / p / l;
    Quotients(o, p, c, l);
    Rearrange(c, l + 1.0, m);
    Rearrange(p, l, m);
    Reals.MulDistributes(l, 1.0, m);
    ScaledOrder(b, a + m, c);
    ScaledOrder(p * l, c * (l + 1.0), m);
  }

  lemma Quotients(o: Positive, p: Positive, c: Positive, l: Positive)
    ensures o / p / l > 0.0
    ensures l * (o / p / l) == o / p && p * (o / p) == o && o / c * c == o
  {
    Reals.DivCancel(o, p);
    Reals.DivCancel(o, c);
    Reals.DivPositive(o, p);
    Reals.DivCancel(o / p, l);
    Reals.DivPositive(o / p, l);
  }

  lemma ScaledOrder(x: real, y: real, c: Positive)
    ensures x <= y <==> x * c <= y * c
  {
    if x <= y { Reals.MulMono(x, y, c); } else { Reals.MulPositive(x - y, c); }
  }

  /** The bankruptcy prices without their divisions. At leverage one a short cannot go bankrupt; its price is a
      stand-in for infinity. */
  lemma BankruptcyPricesMultiplyOut(price: Positive, entry: Positive, long: Positive, short: Positive)
    requires short >= 1.0
    ensures LongBankruptcyPrice(long, entry) <= price <==> entry * long <= price * (long + 1.0)
    ensures short > 1.0
            ==> (price <= ShortBankruptcyPrice(short, entry) <==> price * (short - 1.0) <= entry * short)
    ensures short == 1.0 ==> price * (short - 1.0) <= entry * short
  {
    Reals.DivCancel(entry * long, long + 1.0);
    ScaledOrder(LongBankruptcyPrice(long, entry), price, long + 1.0);
    if short == 1.0 {
      Reals.MulPositive(entry, short);
    } else {
      Reals.DivCancel(entry * short, short - 1.0);
      ScaledOrder(price, ShortBankruptcyPrice(short, entry), short - 1.0);
    }
  }

  /** In exact arithmetic the long side's profit on `o` contracts stays within the two margins of `o` contracts
      exactly between the bankruptcy prices. */
  lemma ExactPnlBoundedIff(o: Positive, entry: Positive, price: Positive, long: Positive, short: Positive)
    requires short >= 1.0
    ensures ExactPnlLong(entry, price, o) >= -ExactMargin(entry, o, long) <==> LongBankruptcyPrice(long, entry) <= price
    ensures ExactPnlLong(entry, price, o) <= ExactMargin(entry, o, short)
            <==> short == 1.0 || price <= ShortBankruptcyPrice(short, entry)
  {
    BankruptcyPricesMultiplyOut(price, entry, long, short);
    LongGainBoundedIff(o, entry, price, short);
    LongLossBoundedIff(o, entry, price, long);
    Reals.DivMul(o, entry, long);
    Reals.DivMul(o, entry, short);
  }

  /** Releasing `o` of `q` contracts frees the exact margin of `o` contracts up to one satoshi of rounding. */
  lemma ReleasedMargin(q: Positive, o: Positive, entry: Positive, leverage: Positive)
    requires o < q
    ensures var released := CalculateMargin(entry, q, leverage) - CalculateMargin(entry, q - o, leverage);
            -1.0 <= released as real - ExactMargin(entry, o, leverage) <= 1.0
  {
    Reals.MulPositive(entry, leverage);
    Reals.DivAdd(q - o, o, entry * leverage);
  }

  /** A decrease between the bankruptcy prices, from margins that match the leverages, realises no more profit
      than the coordinator margin it releases and no more loss than the trader margin it releases, up to one
      satoshi of rounding. This holds for both directions and all leverages from one upwards. */
  lemma DecreaseIsCovered(position: Position, fewer: Positive, price: Positive)
    requires position.TraderMarginConsistent() && position.CoordinatorMarginConsistent()
    requires position.traderLeverage >= 1.0 && position.coordinatorLeverage >= 1.0
    requires fewer < position.contracts && WithinBankruptcyPrices(position, price)
    ensures var rest := position.contracts - fewer;
            var pnl := DecreasePnl(position, fewer, price);
            && pnl <= position.coordinatorMargin
                      - CalculateMargin(position.averageEntryPrice, rest, position.coordinatorLeverage) + 1
            && -pnl <= position.traderMargin
                       - CalculateMargin(position.averageEntryPrice, rest, position.traderLeverage) + 1
  {
    var entry := position.averageEntryPrice;
    var (long, short) := if position.traderDirection.Long?
                         then (position.traderLeverage, position.coordinatorLeverage)
                         else (position.coordinatorLeverage, position.traderLeverage);
    ExactPnlBoundedIff(fewer, entry, price, long, short);
    ReleasedMargin(position.contracts, fewer, entry, long);
    ReleasedMargin(position.contracts, fewer, entry, short);
    CapOnlyShrinks(entry, price, fewer, position.traderDirection, position.MarginLong(), position.MarginShort());
  }

  /** Hence such a decrease draws at most one satoshi from the coordinator's reserve. */
  lemma DecreaseDrawsAtMostOneSatoshi(channel: Channel.Channel, op: Channel.Op)
    requires ChannelRuns.Reduces(channel, op) && Channel.ActionFor(channel, op.trade).action.Decrease?
    requires var position := ChannelRuns.Funded(channel, op).state.position;
             && position.TraderMarginConsistent() && position.CoordinatorMarginConsistent()
             && position.traderLeverage >= 1.0 && position.coordinatorLeverage >= 1.0
             && WithinBankruptcyPrices(position, op.trade.price)
    ensures ChannelRuns.ReserveDrawn(channel, op) <= 1
  {
    var position := ChannelRuns.Funded(channel, op).state.position;
    DeterminedActionsApply(position, op.trade);
    DecreaseIsCovered(position, op.trade.quantity, op.trade.price);
  }
}
