/** The coordinator's side of a protocol in place: it offers, then writes the protocol, then the position, and
    answers the trader's last message or rejection. */
module Coordinator {
  import opened Wrappers
  import opened Positions
  import opened Schema
  import opened ProtocolRuns
  import opened Db
  import C = Channel
  import T = Trade

  /** The protocol steps of `TradeExecutor`, `propose_rollover` and `process_dlc_message`. */
  class Node {
    const db: Database
    const executor: DlcProtocolExecutor
    var phases: map<TraderId, Phase>

    ghost predicate Valid()
      reads this
    {
      executor.db == db
    }

    function CurrentWorld(): World
      reads this, db
    {
      World(db.State(), phases)
    }

    constructor ()
      ensures Valid() && fresh(db)
      ensures CurrentWorld() == World(Tables([], map[], map[], map[], [], [], map[], 0), map[])
    {
      var database := new Database();
      db := database;
      executor := new DlcProtocolExecutor(database);
      phases := map[];
    }

    method OpenPosition(
      trader: TraderId, trade: T.TradeParams, kind: ProtocolType, proposal: Proposal, stop: Stop
    )
      requires Valid()
      modifies db
      ensures db.State() == old(ProposeOpen(db.State(), trader, trade, kind, proposal, stop))
    {
      if stop.AfterOffer? { return; }
      var started := executor.StartTradeProtocol(proposal.id, ProtocolOf(trader, proposal, kind),
                                                 RecordOf(trader, trade, None), []);
      if !started || stop.AfterStart? { return; }
      var before := db.positions;
      db.positions := before + [NewRow(trader, trade, proposal)];
    }

    method StartClosingPosition(i: nat, trade: T.TradeParams, proposal: Proposal, stop: Stop)
      requires Valid() && i < |db.positions|
      modifies db
      ensures db.State() == old(ProposeSettle(db.State(), i, trade, proposal, stop))
    {
      if stop.AfterOffer? { return; }
      var trader := db.positions[i].trader;
      var started := executor.StartTradeProtocol(proposal.id, ProtocolOf(trader, proposal, Settle),
                                                 RecordOf(trader, trade, None), EventsDue(db.State(), i));
      if !started || stop.AfterStart? { return; }
      db.positions := SetClosing(db.positions, trader, Some(trade.price));
    }

    method ResizePosition(i: nat, trade: T.TradeParams, resized: T.ResizedPosition, proposal: Proposal, stop: Stop)
      requires Valid() && i < |db.positions|
      modifies db
      ensures db.State() == old(ProposeResize(db.State(), i, trade, resized, proposal, stop))
    {
      if stop.AfterOffer? { return; }
      var trader := db.positions[i].trader;
      var started := executor.StartTradeProtocol(proposal.id, ProtocolOf(trader, proposal, Schema.ResizePosition),
                                                 RecordOf(trader, trade, resized.realizedPnl),
                                                 EventsDue(db.State(), i));
      if !started || stop.AfterStart? { return; }
      db.positions := SetResizing(db.positions, trader, proposal.contract, resized, trade.matchingFee);
    }

    /** `execute_internal`: determines the action and carries it out. */
    method Trade(
      trader: TraderId, trade: T.TradeParams, proposal: Proposal, coordinatorFunds: nat, traderFunds: nat, stop: Stop
    )
      requires Valid()
      modifies this`phases, db
      ensures Valid()
      ensures var (tables, phase) := old(ProposeTrade(db.State(), CurrentWorld().PhaseOf(trader), trader, trade,
                                                      proposal, coordinatorFunds, traderFunds, stop));
              CurrentWorld() == World(tables, old(phases)[trader := phase])
    {
      var phase := CurrentWorld().PhaseOf(trader);
      match phase {
        case NoChannel =>
          OpenPosition(trader, trade, OpenChannel, proposal, stop);
          phase := Offered(proposal.id);
        case Settled =>
          var channel := C.Channel(coordinatorFunds + traderFunds, C.Settled(coordinatorFunds, traderFunds));
          if C.OpenPositionIn(channel, trade).Ok? {
            OpenPosition(trader, trade, Schema.OpenPosition, proposal, stop);
            phase := RenewOffered(proposal.id, true);
          }
        case Established =>
          var latest := LatestRow(db.positions, trader, {Open});
          if latest.Some? {
            if ActionFor(db.State(), latest.value, trade).ClosePosition? {
              StartClosingPosition(latest.value, trade, proposal, stop);
              phase := SettleOffered(proposal.id);
            } else {
              var resized := ResizeFor(db.State(), latest.value, trade, coordinatorFunds, traderFunds);
              if resized.Ok? {
                ResizePosition(latest.value, trade, resized.value, proposal, stop);
                phase := RenewOffered(proposal.id, false);
              }
            }
          }
        case _ =>
      }
      phases := phases[trader := phase];
    }

    method ProposeRollover(trader: TraderId, proposal: Proposal, stop: Stop)
      requires Valid()
      modifies this`phases, db
      ensures Valid()
      ensures var (tables, phase) := old(ProtocolRuns.ProposeRollover(db.State(), CurrentWorld().PhaseOf(trader),
                                                                      trader, proposal, stop));
              CurrentWorld() == World(tables, old(phases)[trader := phase])
    {
      var phase := CurrentWorld().PhaseOf(trader);
      var latest := LatestRow(db.positions, trader, {Open, Rollover});
      if latest.None? || !phase.Established? {
        phases := phases[trader := phase];
        return;
      }
      phases := phases[trader := RenewOffered(proposal.id, false)];
      if stop.AfterOffer? { return; }
      var started := executor.StartRollover(proposal.id, ProtocolOf(trader, proposal, RolloverProtocol),
                                            RolloverParamsFor(db.State(), latest.value),
                                            EventsDue(db.State(), latest.value));
      if !started || stop.AfterStart? { return; }
      db.positions := SetState(db.positions, trader, {Open}, Rollover);
    }

    /** The trader's last message; an error sets the protocol to failed. */
    method Finalize(trader: TraderId, contract: Option<ContractId>, channel: ChannelId, crash: bool)
      requires Valid()
      modifies this`phases, db
      ensures Valid()
      ensures CurrentWorld() == old(Next(CurrentWorld(), Finalized(trader, contract, channel, crash)))
    {
      var phase := CurrentWorld().PhaseOf(trader);
      phases := phases[trader := phase.Accepted()];
      if !phase.IsPending() || crash { return; }
      var finished := executor.FinishDlcProtocol(phase.protocol, trader, contract, channel);
      if !finished { var _ := executor.FailDlcProtocol(phase.protocol); }
    }

    /** The trader's rejection fails the protocol, and then moves the position. */
    method Reject(trader: TraderId, crash: bool)
      requires Valid()
      modifies this`phases, db
      ensures Valid()
      ensures CurrentWorld() == old(Next(CurrentWorld(), Rejected(trader, crash)))
    {
      var phase := CurrentWorld().PhaseOf(trader);
      phases := phases[trader := phase.Refused()];
      if !phase.IsPending() { return; }
      var failed := executor.FailDlcProtocol(phase.protocol);
      if !failed || crash { return; }
      if phase.Refused().Established? {
        var _ := db.UpdatePositionState(trader, {Closing, Rollover}, Open);
      } else {
        var _ := db.UpdatePositionState(trader, {Proposed}, Failed);
      }
    }
  }
}
