/** Margins, leverage, bankruptcy prices and profit of an inverse BTCUSD contract.
    Prices, leverages and contracts are exact reals; amounts are whole satoshis. */
module Cfd {
  import opened Wrappers
  import Reals

  datatype Direction = Long | Short {
    function Opposite(): Direction
    {
      match this
      case Long => Short
      case Short => Long
    }
  }

  const SATS_PER_BTC: real := 100_000_000.0
  const BTCUSD_MAX_PRICE: real := 1_048_575.0

  /** The leverage reported when no margin is left. */
  const MAX_LEVERAGE: real := 10_000.0

  /** Rounding to whole satoshis, ties away from zero. */
  function RoundAwayFromZero(x: real): (n: int)
    ensures -0.5 <= n as real - x <= 0.5
    ensures x >= 0.0 ==> n >= 0 && n as real - x > -0.5
    ensures x <= 0.0 ==> n <= 0 && n as real - x < 0.5
  {
    if x >= 0.0 then (x + 0.5).Floor else -(0.5 - x).Floor
  }

  /** Rounding to whole satoshis, ties towards zero. */
  function RoundTowardZero(x: real): (n: int)
    ensures -0.5 <= n as real - x <= 0.5
    ensures x >= 0.0 ==> n >= 0 && n as real - x < 0.5
    ensures x <= 0.0 ==> n <= 0 && n as real - x > -0.5
  {
    if x >= 0.0 then -(0.5 - x).Floor else (x + 0.5).Floor
  }

  /** Both roundings are determined by the error bounds, so they treat a number and its negation alike. */
  lemma RoundingIsOdd(x: real)
    ensures RoundAwayFromZero(-x) == -RoundAwayFromZero(x)
    ensures RoundTowardZero(-x) == -RoundTowardZero(x)
  {
  }

  /** Rounding to whole satoshis leaves whole satoshis alone. */
  lemma RoundingKeepsIntegers(n: int)
    ensures RoundAwayFromZero(n as real) == n
    ensures RoundTowardZero(n as real) == n
  {
  }

  /** The exact, unrounded margin in satoshis. */
  function ExactMargin(openPrice: real, quantity: Quantity, leverage: real): (m: real)
    requires openPrice > 0.0 && leverage > 0.0
    ensures m >= 0.0
  {
    Reals.MulPositive(openPrice, leverage);
    Reals.DivNonNegative(quantity, openPrice * leverage);
    quantity / (openPrice * leverage) * SATS_PER_BTC
  }

  /** `calculate_margin`: a zero price or leverage yields no margin instead of a division by zero. */
  function CalculateMargin(openPrice: Quantity, quantity: Quantity, leverage: Quantity): (sats: nat)
    ensures openPrice > 0.0 && leverage > 0.0
            ==> -0.5 < sats as real - ExactMargin(openPrice, quantity, leverage) <= 0.5
    ensures openPrice == 0.0 || leverage == 0.0 ==> sats == 0
  {
    if openPrice == 0.0 || leverage == 0.0 then 0
    else RoundAwayFromZero(ExactMargin(openPrice, quantity, leverage))
  }

  /** `calculate_leverage`: the inverse of `CalculateMargin`, with a cap when there is no margin. */
  function CalculateLeverage(quantity: Positive, margin: nat, openPrice: Positive): (leverage: Positive)
    ensures margin == 0 ==> leverage == 10_000.0
    ensures margin > 0 ==> ExactMargin(openPrice, quantity, leverage) == margin as real
  {
    var marginBtc := margin as real / SATS_PER_BTC;
    if margin == 0 then MAX_LEVERAGE
    else
      LeverageInvertsMargin(quantity, margin, openPrice);
      quantity / (marginBtc * openPrice)
  }

  lemma LeverageInvertsMargin(quantity: Positive, margin: nat, openPrice: Positive)
    requires margin > 0
    ensures margin as real / SATS_PER_BTC * openPrice > 0.0
    ensures var leverage := quantity / (margin as real / SATS_PER_BTC * openPrice);
            leverage > 0.0 && ExactMargin(openPrice, quantity, leverage) == margin as real
  {
    var btc := margin as real / SATS_PER_BTC;
    Reals.DivPositive(margin as real, SATS_PER_BTC);
    Reals.MulPositive(btc, openPrice);
    var leverage := quantity / (btc * openPrice);
    Reals.DivPositive(quantity, btc * openPrice);
    Reals.MulPositive(openPrice, leverage);
    Reals.DivCancel(quantity, btc * openPrice);
    assert btc * (openPrice * leverage) == leverage * (btc * openPrice) == quantity;
    Reals.DivUnique(quantity, openPrice * leverage, btc);
    Reals.DivCancel(margin as real, SATS_PER_BTC);
  }

  function LongBankruptcyPrice(leverage: Positive, price: Positive): (b: real)
    ensures 0.0 < b < price
  {
    Reals.MulPositive(price, leverage);
    Reals.DivPositive(price * leverage, leverage + 1.0);
    Reals.DivCancel(price * leverage, leverage + 1.0);
    var b := price * leverage / (leverage + 1.0);
    assert b * (leverage + 1.0) == price * leverage;
    assert (price - b) * (leverage + 1.0) == price;
    b
  }

  /** At leverage one a short cannot go bankrupt, and the largest price stands for infinity. */
  function ShortBankruptcyPrice(leverage: Positive, price: Positive): (b: real)
    requires leverage >= 1.0
    ensures b > 0.0
    ensures leverage == 1.0 ==> b == 1_048_575.0
  {
    if leverage == 1.0 then BTCUSD_MAX_PRICE
    else
      Reals.MulPositive(price, leverage);
      Reals.DivPositive(price * leverage, leverage - 1.0);
      price * leverage / (leverage - 1.0)
  }

  /** The long side's profit in satoshis before any cap. */
  function ExactPnlLong(openingPrice: real, closingPrice: real, quantity: real): real
    requires openingPrice > 0.0 && closingPrice > 0.0
  {
    (quantity / openingPrice - quantity / closingPrice) * SATS_PER_BTC
  }

  function UncappedPnlLong(openingPrice: Quantity, closingPrice: Quantity, quantity: Quantity): int
  {
    if openingPrice > 0.0 && closingPrice > 0.0 then
      RoundTowardZero(ExactPnlLong(openingPrice, closingPrice, quantity))
    else 0
  }

  /** `calculate_pnl`: nobody wins more than the other side wagered or loses more than their own wager. */
  function CalculatePnl(
    openingPrice: Quantity, closingPrice: Quantity, quantity: Quantity, direction: Direction,
    initialMarginLong: nat, initialMarginShort: nat
  ): (pnl: int)
    ensures direction.Long? ==> 0 - initialMarginLong <= pnl <= initialMarginShort
    ensures direction.Short? ==> 0 - initialMarginShort <= pnl <= initialMarginLong
  {
    var uncapped := UncappedPnlLong(openingPrice, closingPrice, quantity);
    match direction
    case Long =>
      var maxWin := Min(uncapped, initialMarginShort);
      if maxWin < 0 then Max(maxWin, 0 - initialMarginLong) else maxWin
    case Short =>
      var maxWin := Min(-uncapped, initialMarginLong);
      if maxWin < 0 then Max(maxWin, 0 - initialMarginShort) else maxWin
  }

  /** `pnl` is the exact profit in whole satoshis, half a satoshi rounded towards zero, unless that profit exceeds what
      the other side wagered or the loss exceeds the own wager; then it is that wager. */
  predicate IsCapped(pnl: int, exact: real, ownMargin: nat, otherMargin: nat)
  {
    if exact > otherMargin as real then pnl == otherMargin
    else if -exact > ownMargin as real then pnl == 0 - ownMargin
    else
      && -0.5 <= pnl as real - exact <= 0.5
      && (exact >= 0.0 ==> pnl as real - exact < 0.5)
      && (exact <= 0.0 ==> pnl as real - exact > -0.5)
  }

  /** The profit of `direction` on a contract that is bought or sold at one price and closed at another. */
  predicate IsPnl(
    pnl: int, direction: Direction, openingPrice: Positive, closingPrice: Positive, quantity: Quantity,
    ownMargin: nat, otherMargin: nat
  )
  {
    var gain := (quantity / openingPrice - quantity / closingPrice) * SATS_PER_BTC;
    IsCapped(pnl, if direction.Long? then gain else -gain, ownMargin, otherMargin)
  }

  /** What the profit is, to the last satoshi: that of the price difference in the given direction, between the two
      margins. */
  lemma PnlIsCapped(
    openingPrice: Positive, closingPrice: Positive, quantity: Quantity, direction: Direction,
    marginLong: nat, marginShort: nat
  )
    ensures var pnl := CalculatePnl(openingPrice, closingPrice, quantity, direction, marginLong, marginShort);
            IsPnl(pnl, direction, openingPrice, closingPrice, quantity,
                  if direction.Long? then marginLong else marginShort,
                  if direction.Long? then marginShort else marginLong)
  {
  }

  /** A missing price leaves neither side with a profit. */
  lemma NoPriceNoPnl(
    openingPrice: Quantity, closingPrice: Quantity, quantity: Quantity, direction: Direction,
    marginLong: nat, marginShort: nat
  )
    requires openingPrice == 0.0 || closingPrice == 0.0
    ensures CalculatePnl(openingPrice, closingPrice, quantity, direction, marginLong, marginShort) == 0
  {
  }

  /** There is only one such profit. */
  lemma PnlIsUnique(
    a: int, b: int, direction: Direction, openingPrice: Positive, closingPrice: Positive, quantity: Quantity,
    ownMargin: nat, otherMargin: nat
  )
    requires IsPnl(a, direction, openingPrice, closingPrice, quantity, ownMargin, otherMargin)
    requires IsPnl(b, direction, openingPrice, closingPrice, quantity, ownMargin, otherMargin)
    ensures a == b
  {
  }

  /** A contract moves money between its two sides and creates none. */
  lemma PnlIsZeroSum(
    openingPrice: Quantity, closingPrice: Quantity, quantity: Quantity, direction: Direction,
    marginLong: nat, marginShort: nat
  )
    ensures CalculatePnl(openingPrice, closingPrice, quantity, direction, marginLong, marginShort)
            == -CalculatePnl(openingPrice, closingPrice, quantity, direction.Opposite(), marginLong, marginShort)
  {
  }

  /** The cap never makes a profit larger than the uncapped one, nor a loss larger than the uncapped one. */
  lemma CapOnlyShrinks(
    openingPrice: Quantity, closingPrice: Quantity, quantity: Quantity, direction: Direction,
    marginLong: nat, marginShort: nat
  )
    ensures var pnl := CalculatePnl(openingPrice, closingPrice, quantity, direction, marginLong, marginShort);
            var long := UncappedPnlLong(openingPrice, closingPrice, quantity);
            var uncapped := if direction.Long? then long else -long;
            Min(0, uncapped) <= pnl <= Max(0, uncapped)
  {
  }
}
