/** Funding fees: their amount, and netting several of them. */
module FundingFee {
  import opened Wrappers
  import opened Cfd
  import opened Positions
  import C = Channel
  import Reals

  // ---------------------------------------------------------------- amounts

  /** The unrounded fee in satoshis, positive when the trader pays. */
  function ExactFundingFee(quantity: Quantity, rate: real, indexPrice: real, direction: Direction): real
    requires indexPrice != 0.0
  {
    quantity / indexPrice * (if direction.Long? then rate else -rate) * SATS_PER_BTC
  }

  /** To the nearest satoshi, half a satoshi away from zero. */
  predicate IsRounded(sats: int, exact: real)
  {
    && -0.5 <= sats as real - exact <= 0.5
    && (exact >= 0.0 ==> sats as real - exact > -0.5)
    && (exact <= 0.0 ==> sats as real - exact < 0.5)
  }

  /** `calculate_funding_fee`: a positive rate makes longs pay shorts. */
  function CalculateFundingFee(quantity: Quantity, rate: real, indexPrice: real, direction: Direction): (sats: int)
    requires indexPrice != 0.0
    ensures IsRounded(sats, ExactFundingFee(quantity, rate, indexPrice, direction))
  {
    RoundAwayFromZero(ExactFundingFee(quantity, rate, indexPrice, direction))
  }

  lemma ExactFeeIsOdd(quantity: Quantity, rate: real, indexPrice: real, direction: Direction)
    requires indexPrice != 0.0
    ensures ExactFundingFee(quantity, rate, indexPrice, direction.Opposite())
            == -ExactFundingFee(quantity, rate, indexPrice, direction)
  {
    Reals.MulNegates(quantity / indexPrice, rate);
    Reals.MulNegates(quantity / indexPrice * rate, SATS_PER_BTC);
  }

  /** Equal and opposite positions owe exactly equal and opposite fees, to the last satoshi. */
  lemma FundingFeeIsOdd(quantity: Quantity, rate: real, indexPrice: real, direction: Direction)
    requires indexPrice != 0.0
    ensures CalculateFundingFee(quantity, rate, indexPrice, direction.Opposite())
            == -CalculateFundingFee(quantity, rate, indexPrice, direction)
  {
    var exact := ExactFundingFee(quantity, rate, indexPrice, direction);
    var opposite := ExactFundingFee(quantity, rate, indexPrice, direction.Opposite());
    assert opposite == -exact by { ExactFeeIsOdd(quantity, rate, indexPrice, direction); }
    RoundingIsOdd(exact);
  }

  /** One position's share in a funding period. */
  datatype Exposure = Exposure(quantity: Quantity, direction: Direction) {
    function SignedContracts(): real
    {
      RelativeContracts(quantity, direction)
    }
  }

  function Total(amounts: seq<real>): real
  {
    if |amounts| == 0 then 0.0 else amounts[0] + Total(amounts[1..])
  }

  function SignedContractsOf(exposures: seq<Exposure>): (contracts: seq<real>)
    ensures |contracts| == |exposures|
    ensures forall i :: 0 <= i < |contracts| ==> contracts[i] == exposures[i].SignedContracts()
  {
    seq(|exposures|, i requires 0 <= i < |exposures| => exposures[i].SignedContracts())
  }

  /** The contracts of all the positions together, as signed by the traders' directions. */
  function NetContracts(exposures: seq<Exposure>): real
  {
    Total(SignedContractsOf(exposures))
  }

  /** The unrounded fees of a list of positions. */
  function ExactFees(exposures: seq<Exposure>, rate: real, indexPrice: real): (fees: seq<real>)
    requires indexPrice != 0.0
    ensures |fees| == |exposures|
    ensures forall i :: 0 <= i < |fees| ==>
              fees[i] == ExactFundingFee(exposures[i].quantity, rate, indexPrice, exposures[i].direction)
  {
    seq(|exposures|, i requires 0 <= i < |exposures| =>
      ExactFundingFee(exposures[i].quantity, rate, indexPrice, exposures[i].direction))
  }

  /** The sum of amounts that are rounded one by one. */
  function RoundedTotal(amounts: seq<real>): int
  {
    if |amounts| == 0 then 0 else RoundAwayFromZero(amounts[0]) + RoundedTotal(amounts[1..])
  }

  lemma {:induction false} RoundedTotalIsNear(amounts: seq<real>)
    ensures -0.5 * |amounts| as real <= RoundedTotal(amounts) as real - Total(amounts) <= 0.5 * |amounts| as real
  {
    if |amounts| > 0 {
      RoundedTotalIsNear(amounts[1..]);
      Reals.ErrorsAdd(RoundAwayFromZero(amounts[0]), amounts[0], RoundedTotal(amounts[1..]), Total(amounts[1..]),
                      |amounts[1..]| as real);
    }
  }

  /** What all positions together owe the coordinator. */
  function TotalFees(exposures: seq<Exposure>, rate: real, indexPrice: real): int
    requires indexPrice != 0.0
  {
    if |exposures| == 0 then 0
    else CalculateFundingFee(exposures[0].quantity, rate, indexPrice, exposures[0].direction)
         + TotalFees(exposures[1..], rate, indexPrice)
  }

  lemma {:induction false} TotalFeesAreRounded(exposures: seq<Exposure>, rate: real, indexPrice: real)
    requires indexPrice != 0.0
    ensures TotalFees(exposures, rate, indexPrice) == RoundedTotal(ExactFees(exposures, rate, indexPrice))
  {
    if |exposures| > 0 {
      TotalFeesAreRounded(exposures[1..], rate, indexPrice);
      assert ExactFees(exposures, rate, indexPrice)[1..] == ExactFees(exposures[1..], rate, indexPrice);
    }
  }

  predicate AreNear(rounded: seq<int>, exact: seq<real>)
  {
    |rounded| == |exact| && forall i :: 0 <= i < |exact| ==> -0.5 <= rounded[i] as real - exact[i] <= 0.5
  }

  lemma {:induction false} SumIsNear(rounded: seq<int>, exact: seq<real>)
    requires AreNear(rounded, exact)
    ensures -0.5 * |exact| as real <= C.Sum(rounded) as real - Total(exact) <= 0.5 * |exact| as real
  {
    if |exact| > 0 {
      SumIsNear(rounded[1..], exact[1..]);
      Reals.ErrorsAdd(rounded[0], exact[0], C.Sum(rounded[1..]), Total(exact[1..]), |exact[1..]| as real);
    }
  }

  /** The fee of one contract. */
  function FeePerContract(rate: real, indexPrice: real): real
    requires indexPrice != 0.0
  {
    1.0 / indexPrice * rate * SATS_PER_BTC
  }

  lemma ExactFeeIsLinear(exposure: Exposure, rate: real, indexPrice: real)
    requires indexPrice != 0.0
    ensures ExactFundingFee(exposure.quantity, rate, indexPrice, exposure.direction)
            == exposure.SignedContracts() * FeePerContract(rate, indexPrice)
  {
    var quantity: real := exposure.quantity;
    var inverse := 1.0 / indexPrice;
    Reals.DivScale(1.0, quantity, indexPrice);
    assert quantity / indexPrice == quantity * inverse;
    Reals.MulAssociates(quantity, inverse, rate);
    Reals.MulAssociates(quantity, inverse * rate, SATS_PER_BTC);
    if exposure.direction.Short? {
      Reals.MulNegates(quantity * inverse, rate);
      Reals.MulNegates(quantity * inverse * rate, SATS_PER_BTC);
      Reals.MulNegates(quantity, inverse * rate * SATS_PER_BTC);
    }
  }

  /** A fee is that of one contract times the signed contracts, to the satoshi. */
  lemma FeeIsLinear(exposure: Exposure, rate: real, indexPrice: real)
    requires indexPrice != 0.0
    ensures IsRounded(CalculateFundingFee(exposure.quantity, rate, indexPrice, exposure.direction),
                      exposure.SignedContracts() * FeePerContract(rate, indexPrice))
  {
    ExactFeeIsLinear(exposure, rate, indexPrice);
  }

  predicate AreScaled(amounts: seq<real>, scaled: seq<real>, factor: real)
  {
    |scaled| == |amounts| && forall i :: 0 <= i < |amounts| ==> scaled[i] == amounts[i] * factor
  }

  lemma {:induction false} TotalScales(amounts: seq<real>, scaled: seq<real>, factor: real)
    requires AreScaled(amounts, scaled, factor)
    ensures Total(scaled) == Total(amounts) * factor
  {
    if |amounts| > 0 {
      TotalScales(amounts[1..], scaled[1..], factor);
      Reals.MulDistributes(amounts[0], Total(amounts[1..]), factor);
    }
  }

  function Scaled(amounts: seq<real>, factor: real): (scaled: seq<real>)
    ensures AreScaled(amounts, scaled, factor)
  {
    seq(|amounts|, i requires 0 <= i < |amounts| => amounts[i] * factor)
  }

  /** What `n` traders owe together is the fee of their net contracts, up to half a satoshi each. */
  predicate IsNearNet(owed: int, net: real, fee: real, n: nat)
  {
    -0.5 * n as real <= owed as real - net * fee <= 0.5 * n as real
  }

  lemma BalancedIsNearZero(owed: int, fee: real, n: nat)
    requires IsNearNet(owed, 0.0, fee, n)
    ensures 0 - n <= 2 * owed <= n
  {
    assert 0.0 * fee == 0.0;
  }

  /** Amounts that are near the fees of some contracts add up to the fee of all of them. */
  lemma SumNearScaled(rounded: seq<int>, contracts: seq<real>, fee: real)
    requires AreNear(rounded, Scaled(contracts, fee))
    ensures IsNearNet(C.Sum(rounded), Total(contracts), fee, |rounded|)
  {
    SumIsNear(rounded, Scaled(contracts, fee));
    TotalScales(contracts, Scaled(contracts, fee), fee);
  }

  lemma ExactFeesAreScaled(exposures: seq<Exposure>, rate: real, indexPrice: real)
    requires indexPrice != 0.0
    ensures AreScaled(SignedContractsOf(exposures), ExactFees(exposures, rate, indexPrice),
                      FeePerContract(rate, indexPrice))
  {
    forall i | 0 <= i < |exposures|
      ensures ExactFees(exposures, rate, indexPrice)[i]
              == SignedContractsOf(exposures)[i] * FeePerContract(rate, indexPrice)
    {
      ExactFeeIsLinear(exposures[i], rate, indexPrice);
    }
  }

  lemma ExactFeesFollowNet(exposures: seq<Exposure>, rate: real, indexPrice: real)
    requires indexPrice != 0.0
    ensures Total(ExactFees(exposures, rate, indexPrice)) == NetContracts(exposures) * FeePerContract(rate, indexPrice)
  {
    ExactFeesAreScaled(exposures, rate, indexPrice);
    TotalScales(SignedContractsOf(exposures), ExactFees(exposures, rate, indexPrice), FeePerContract(rate, indexPrice));
  }

  /** Whatever the positions are, the fees of `n` of them stay within n/2 satoshis of the fee of the net position. */
  lemma TotalFeesNearNet(exposures: seq<Exposure>, rate: real, indexPrice: real)
    requires indexPrice != 0.0
    ensures var exact := NetContracts(exposures) * FeePerContract(rate, indexPrice);
            -0.5 * |exposures| as real <= TotalFees(exposures, rate, indexPrice) as real - exact
                                       <= 0.5 * |exposures| as real
  {
    TotalFeesAreRounded(exposures, rate, indexPrice);
    ExactFeesFollowNet(exposures, rate, indexPrice);
    RoundedTotalIsNear(ExactFees(exposures, rate, indexPrice));
  }

  /** With as many long contracts as short ones the coordinator is out of pocket by at most n/2 satoshis. */
  lemma BalancedBookIsNearlyNeutral(exposures: seq<Exposure>, rate: real, indexPrice: real)
    requires indexPrice != 0.0 && NetContracts(exposures) == 0.0
    ensures -|exposures| <= 2 * TotalFees(exposures, rate, indexPrice) <= |exposures|
  {
    TotalFeesNearNet(exposures, rate, indexPrice);
    assert 0.0 * FeePerContract(rate, indexPrice) == 0.0;
  }

  // ---------------------------------------------------------------- netting

  /** What the trader and the coordinator owe in total. */
  function TraderOwes(events: seq<int>): nat
  {
    if |events| == 0 then 0 else Max(events[0], 0) + TraderOwes(events[1..])
  }

  function CoordinatorOwes(events: seq<int>): nat
  {
    if |events| == 0 then 0 else Max(-events[0], 0) + CoordinatorOwes(events[1..])
  }

  lemma {:induction false} SumIsDifference(events: seq<int>)
    ensures C.Sum(events) == TraderOwes(events) - CoordinatorOwes(events)
  {
    if |events| > 0 { SumIsDifference(events[1..]); }
  }

  /** Charging the events one by one instead of netting them. */
  function FundEach(channel: C.Channel, events: seq<int>): (after: C.Channel)
    requires channel.state.Established?
    ensures after.state.Established?
    decreases |events|
  {
    if |events| == 0 then channel
    else FundEach(C.FundChannel(channel, C.NetFundingFee(events[..1])), events[1..])
  }

  /** One event reduces the payer's margin, down to zero, and fills the earner's reserve. */
  lemma {:induction false} FundEachPots(channel: C.Channel, events: seq<int>)
    requires channel.state.Established?
    ensures var before := channel.state;
            var after := FundEach(channel, events).state;
            && after.position.traderMargin == Max(before.position.traderMargin - TraderOwes(events), 0)
            && after.position.coordinatorMargin == Max(before.position.coordinatorMargin - CoordinatorOwes(events), 0)
            && after.reserveTrader == before.reserveTrader + CoordinatorOwes(events)
            && after.reserveCoordinator == before.reserveCoordinator + TraderOwes(events)
    decreases |events|
  {
    if |events| > 0 {
      assert C.Sum(events[..1]) == events[0] by { assert events[..1][1..] == []; }
      FundEachPots(C.FundChannel(channel, C.NetFundingFee(events[..1])), events[1..]);
    }
  }

  /** Netting gives each party the same total as charging event by event exactly when neither side both owes more
      than its margin and is owed something; and it never leaves a party with less margin. */
  lemma NettingAgreesIff(channel: C.Channel, events: seq<int>)
    requires channel.state.Established?
    ensures var each := FundEach(channel, events);
            var net := C.FundChannel(channel, C.NetFundingFee(events));
            var trader := TraderOwes(events);
            var coordinator := CoordinatorOwes(events);
            var position := channel.state.position;
            && net.state.position.traderMargin >= each.state.position.traderMargin
            && net.state.position.coordinatorMargin >= each.state.position.coordinatorMargin
            && (net.TraderHoldings() == each.TraderHoldings()
                <==> trader <= position.traderMargin || coordinator == 0)
            && (net.CoordinatorHoldings() == each.CoordinatorHoldings()
                <==> coordinator <= position.coordinatorMargin || trader == 0)
  {
    FundEachPots(channel, events);
    SumIsDifference(events);
  }
}
