# Coordinator: positions, DLC channels and protocols

A model of how the coordinator of an inverse BTCUSD exchange accounts for its traders' positions, and proofs about it.
A trader and the coordinator lock collateral in a DLC channel. Four pots split it: a margin and a reserve for each side.
Matched orders, funding fees, rollovers and settlements move the pots; every such change is a protocol of several
messages that the coordinator also writes to its database.

The project has three layers.

- **The channel as money.** `Cfd`, `Positions` and `Trade` hold the arithmetic; `Channel` puts it together into steps of
  one channel, and `ChannelRuns`, `Bankruptcy` and `Averages` say what every run of steps keeps. `FundingFee` is about the
  amount and the netting of funding fees.
- **The database and the protocols.** `Schema` has the tables as values and each statement as a function; `Db` has them
  in place, with transactions that roll back. `Finishing` is about a single protocol, `ProtocolRuns` about proposals,
  answers and the points where the coordinator may stop between them, `Proposals` about what each of them writes,
  `ProtocolInvariant`, `ProtocolSteps` and `ProtocolSafety` about the positions in all runs of all traders,
  `ProtocolRecords` about the trades of finished protocols and `FundingCharges` about their funding fee events.
  `Coordinator` is the imperative form of the steps. `Bookkeeping` joins both layers: in runs without a fault the
  database holds exactly what the channel arithmetic says. `Messages` and `Inbound` are the message tables and the
  processing of received messages; `Refinement` shows that whatever is received, however often, is a run of
  `ProtocolRuns`. `FundingEvents` has the hourly funding fee events.
- **The matching engine**, `Matching`.

Amounts are whole satoshis, and prices, leverages and contracts exact reals; rounding to satoshis is that of the code.
Traders, protocols, contracts, channels and message texts are numbers. Rows of `positions`, `trades` and
`funding_fee_events` are in order of creation, and a row's index is its id. What the DLC library decides, the clock, new
protocol ids and I/O errors are parameters.

`dafny verify dfyconfig.toml` checks everything.

## What the proofs found

Where the code differs from what its comments or design promise, the model follows the code. A lemma says exactly when the
promise holds, and where it fails there is an input.

- The profit of a decrease is capped by the whole margin and not by the part released, so beyond the bankruptcy price it
  can be paid from accrued order-matching fees (`ChannelRuns.DecreaseCanSpendAccruedFees`,
  `ChannelRuns.FeesSurviveResizeIff`, `Bankruptcy.ExactPnlBoundedIff`).
- Reopening lets the coordinator use the fee it is just earning as margin, unless its payout alone covers the margin
  (`Channel.ReopeningProtectsFee`, `ChannelRuns.ReopeningCanSpendFee`).
- A net funding fee above the payer's margin credits the earner in full: the four pots then add up to more than the
  channel holds (`Channel.FundingFeeLedger`, `ChannelRuns.ConservedIffCovered`, `ChannelRuns.FundingFeeCanCreateCoins`).
- `set_position_to_resizing` writes margins that were computed with the leverages after the funding fee and leaves the
  leverage columns before it (`ChannelRuns.StaleLeverageTakesBackFundingFee`,
  `ChannelRuns.ResizeKeepsMarginsConsistentIff`, `ChannelRuns.NextCloseTakesNothingBackIff`). An increase scales that
  error up (`Averages.IncreaseScalesFundingFee`, `ChannelRuns.IncreaseTakesBackFundingFeeTwice`).
- `mark_funding_fee_event_as_paid` deletes links by their own id, comparing it with ids of events
  (`Finishing.LinksSurviveIff`, `Finishing.FinishingCanLoseAnotherLink`). An event whose link is lost stays due when its
  protocol finishes, and goes into the next proposal (`FundingCharges.ChargedEventStaysDueIff`); an event that loses no
  link is charged by one finished protocol at most (`FundingCharges.EventIsChargedOnce`).
- Finishing a rollover is not guarded by the state of a position (`Finishing.RolloverIsNotGuarded`).
- A rejected resize leaves the position resizing, with a size that was not agreed on (`Bookkeeping.RejectedFollowsIff`,
  `Bookkeeping.RejectedResizeStays`).
- Writing an offer to settle, recording a settlement, and moving the position of a rejected opening are each several
  statements; a stop between them leads to two active positions of one trader (`ProtocolSafety.ToleratedIffKept`,
  `ProtocolSafety.UntoleratedStopBreaksSafety`).
- A received message is recorded before it takes effect, so that an error in between loses the effect for good
  (`Inbound.EffectIsLostIff`, `Inbound.LastMessageCanBeLost`, `Inbound.StoppedResizeLosesMessage`,
  `Inbound.RedeliveryChangesNothing`).
- An error of a message that is not recorded fails the protocol that it names each time it is delivered, whichever
  protocol that is and even after another message finished it (`Inbound.DeliveryTakesSuccessIff`,
  `Inbound.RefusedRedeliveryTakesSuccess`). The trades then belong to protocols that finished but are not all in
  `Success` (`ProtocolRecords.TradesAreFinishedProtocols`, `ProtocolRecords.SuccessSurvivesIff`,
  `Refinement.DeliveryKeepsSuccessIff`).
- `cancel_offer` deletes the offer only if its own rejection finds a protocol and a proposed position, and not an offer
  whose event still waits in the handler's queue (`Inbound.CancelDeletesIff`, `Messages.QueuedOfferSurvivesCancel`).

## Model

| member | source | states |
|---|---|---|
| `Cfd.CalculateMargin` | crates/xxi-node/src/cfd.rs:15-32 | the margin in whole satoshis is within half a satoshi of the exact one; a zero price or leverage gives none instead of dividing by zero |
| `Cfd.CalculateLeverage` | crates/xxi-node/src/cfd.rs:35-43 | the leverage stands for exactly the given margin; without margin it is the cap of 10,000 |
| `Cfd.LongBankruptcyPrice` | crates/xxi-node/src/cfd.rs:58-68 | lies strictly between zero and the entry price |
| `Cfd.ShortBankruptcyPrice` | crates/xxi-node/src/cfd.rs:70-86 | is positive for every leverage from one upwards |
| `Cfd.PnlIsCapped` | crates/xxi-node/src/cfd.rs:97-142 | the profit is the price difference in the given direction, to the satoshi with ties towards zero, and exactly the own margin lost or the other side's won where it exceeds them |
| `Cfd.NoPriceNoPnl` | crates/xxi-node/src/cfd.rs:105-116 | without one of the prices nobody wins or loses |
| `Cfd.PnlIsZeroSum` | crates/xxi-node/src/cfd.rs:97-142 | the two directions of one contract realise exactly opposite profits |
| `Cfd.CapOnlyShrinks` | crates/xxi-node/src/cfd.rs:118-139 | the cap moves a profit towards zero and never past it |
| `Positions.FundingFeeKeepsMarginsConsistent` | coordinator/src/position/models.rs:207-282 | after a funding fee the stored leverage reproduces the stored margin exactly when something is left of the margin, or the leverage cap stands for none |
| `Positions.CoordinatorPnlIsTradersLoss` | coordinator/src/position/models.rs:287-312 | the coordinator settles for the trader's loss: that of all contracts from entry to closing price in the trader's direction, between the margins recomputed from the leverages |
| `Positions.SettlementCollectsFee` | coordinator/src/position/models.rs:313-336 | the settlement is the margin plus that profit plus as much of the fee as the trader's side still holds |
| `Trade.TradeActionAddsContracts` | coordinator/src/trade/mod.rs:1239-1295 | close, increase, decrease and change of direction add the signed trade to the signed position, if and only if the position is not empty or already faces the trade's way |
| `Trade.DeterminedActionsApply` | coordinator/src/trade/mod.rs:1253-1295 | a chosen decrease leaves contracts and a chosen change of direction opens some |
| `Trade.AveragePrice` | coordinator/src/trade/mod.rs:1413-1422 | contracts over the average price is the sum of the two quotients |
| `Trade.ResizeLedger` | coordinator/src/trade/mod.rs:1342-1692 | a resize goes through exactly when it is funded, and then moves between the parties the realised profit, the fee and, on a change of direction, the margin drift, and nothing else |
| `Trade.ResizedContracts` | coordinator/src/trade/mod.rs:1413-1424 | the resized row holds the contracts and the direction that the action stands for |
| `Trade.DecreasePnlIsTraders` | coordinator/src/trade/mod.rs:1488-1498 | the realised profit is the trader's, in the trader's direction, from the entry price to the trade's, between the two stored margins |
| `Trade.ResizedPriceAndPnl` | coordinator/src/trade/mod.rs:1342-1692 | an increase averages the price and realises nothing, a decrease keeps the price and a change of direction takes the trade's, and both report the trader's profit on the contracts they close |
| `Trade.ResizedMargins` | coordinator/src/trade/mod.rs:1342-1692 | the margins of the new size at each party's leverage; an increase adds those of the new contracts |
| `Trade.ResizeRefusals` | coordinator/src/trade/mod.rs:1342-1692 | every refusal names what is missing |
| `Channel.OpeningSplitsCollateral` | coordinator/src/trade/mod.rs:470-543 | a trader with own funds locks up its margin, its reserve and the fee, one who pays outside the channel nothing, and the coordinator the rest; the four pots are exactly that, the coordinator's reserve holds the fee, external funds are used up to the last satoshi, and opening fails exactly when they do not reach |
| `Channel.FundingFeeLedger` | coordinator/src/node/channel.rs:291-343 | a funding fee conserves the collateral exactly when the payer's margin covers it; otherwise the uncovered part is created |
| `Channel.ReopeningSplitsPayouts` | coordinator/src/trade/mod.rs:644-671 | reopening goes through exactly when both payouts cover the margins and the fee, and splits each into margin and reserve |
| `Channel.ReopeningProtectsFee` | coordinator/src/trade/mod.rs:644-671 | reopening keeps the total, and keeps the fee in the coordinator's reserve exactly when its payout alone covers the margin |
| `Channel.ClosingSplitsChannel` | coordinator/src/trade/mod.rs:1066-1118 | from consistent margins closing pays out exactly the channel, moves to the trader its own profit or loss on all contracts less the fee as far as its margin goes, and the saturating subtraction does not fire |
| `ChannelRuns.CloseLedger` | coordinator/src/trade/mod.rs:1066-1118 | what closing moves between the parties, with the corrections for stored margins that differ from the recomputed ones |
| `ChannelRuns.StepLedger` | coordinator/src/trade/mod.rs:305-449 | one completed protocol changes each party's margin plus reserve by its ledger entry, and never the locked collateral |
| `ChannelRuns.RunLedger` | coordinator/src/trade/mod.rs:305-449 | over any run each party holds its start plus the sum of its ledger entries, and the locked collateral stays |
| `ChannelRuns.StepProfitAndFee` | coordinator/src/trade/mod.rs:1066-1692 | the profit entry is the trader's on exactly the contracts that the step closes, and the fee entry the whole fee, at a close only as far as the trader's stake goes |
| `ChannelRuns.StepFunding` | coordinator/src/node/channel.rs:291-343 | the funding entry is the sum of the events, paid in full or taken from the margin as far as it goes |
| `ChannelRuns.StepEntries` | coordinator/src/trade/mod.rs:1350-1689 | a trader's entry is the profit less the fee plus the funding plus the drift, and the coordinator's is its mirror image but for created or removed coins |
| `ChannelRuns.RunEntries` | coordinator/src/trade/mod.rs:1350-1689 | so are the separate sums over any run |
| `ChannelRuns.CoveredRunsMirror` | coordinator/src/node/rollover.rs:213-264 | along a covered run what one party gains the other loses |
| `ChannelRuns.StepExcess` | coordinator/src/trade/mod.rs:1064-1118 | only an uncovered funding fee creates coins, and closing removes them |
| `ChannelRuns.CoveredRunsConserve` | coordinator/src/node/rollover.rs:213-264 | along every covered run margins and reserves add up to the locked collateral |
| `ChannelRuns.ConservedIffCovered` | coordinator/src/node/rollover.rs:213-264 | between two closes, they do so if and only if every funding fee was covered |
| `ChannelRuns.StepSurplus` | coordinator/src/trade/mod.rs:1364-1392 | funding fees, increases and decreases that draw nothing from the reserve keep the accrued order-matching fees in it |
| `ChannelRuns.AccruedFeesStayProtected` | coordinator/src/trade/mod.rs:1324-1341 | so does every run of such steps |
| `ChannelRuns.FeesSurviveResizeIff` | coordinator/src/trade/mod.rs:1471-1527 | a decrease or change of direction keeps the accrued fees exactly when the uncommitted reserve before it covers the realised profit and drift beyond the margin it will release |
| `ChannelRuns.PositionIsRunningSum` | coordinator/src/trade/mod.rs:1239-1295 | over any run, through closing and reopening, the signed position is the running sum of the orders that went through |
| `ChannelRuns.DecreaseCanSpendAccruedFees` | coordinator/src/trade/mod.rs:1488-1498 | a decrease whose capped profit pays the trader out of accrued fees, which the comment rules out |
| `ChannelRuns.ResizeKeepsMarginsConsistentIff` | coordinator/src/db/positions.rs:264-288 | a decrease or change of direction stores margins that its stored leverages stand for exactly when the leverages before and after the funding fee give what is left the same margin; without a fee they do |
| `ChannelRuns.CloseDriftIs` | coordinator/src/trade/mod.rs:1085-1118 | a close moves, beside profit and fee, the distance of the coordinator's margin from its leverage, unless the trader cannot bear it |
| `ChannelRuns.NextCloseTakesNothingBackIff` | coordinator/src/trade/mod.rs:1085-1118 | the close after such a resize takes nothing back exactly when the larger of the mistaken margin and of the trader's overdraft is zero, and so if neither leverage changes the margins |
| `ChannelRuns.StaleLeverageTakesBackFundingFee` | coordinator/src/db/positions.rs:264-288 | a resize does not store the leverage it used, so that the next settlement takes back half of a funding fee |
| `ChannelRuns.IncreaseTakesBackFundingFeeTwice` | coordinator/src/db/positions.rs:264-288 | after an increase with an outstanding fee, the next settlement takes back twice the fee |
| `ChannelRuns.ReopeningCanSpendFee` | coordinator/src/trade/mod.rs:644-671 | a reopening that goes through only with the fee it earns, and leaves less than the accrued fees in the reserve |
| `ChannelRuns.FundingFeeCanCreateCoins` | coordinator/src/node/channel.rs:291-343 | a rollover whose funding fee exceeds the payer's margin leaves the four pots with more than the channel holds |
| `Bankruptcy.ExactPnlBoundedIff` | crates/xxi-node/src/cfd.rs:58-86 | the exact profit stays within the margins of the contracts traded if and only if the price is between the bankruptcy prices, for all leverages |
| `Bankruptcy.DecreaseIsCovered` | coordinator/src/trade/mod.rs:1471-1498 | hence a decrease realises at most the margins it releases, up to one satoshi of rounding |
| `Bankruptcy.DecreaseDrawsAtMostOneSatoshi` | coordinator/src/trade/mod.rs:1500-1527 | and draws at most one satoshi from the coordinator's reserve |
| `Averages.AverageIsQuotient` | coordinator/src/trade/websocket.rs:234-251 | the shortcut for one position agrees with the formula |
| `Averages.AverageIgnoresOrder` | coordinator/src/trade/websocket.rs:244-250 | the average does not depend on the order of the executions |
| `Averages.AverageIsBetween` | coordinator/src/trade/websocket.rs:244-250 | and lies between the least and the greatest price |
| `Averages.RunOfIncreasesStoresRow` | coordinator/src/trade/mod.rs:1351-1454 | a run of increases of the channel stores the fold over the fills |
| `Averages.StoredAverageIsOverall` | coordinator/src/trade/mod.rs:1413-1422 | increasing step by step stores the average over all the fills |
| `Averages.StoredMarginDrift` | coordinator/src/trade/mod.rs:1357-1399 | after an opening and k increases a stored margin is within (k+2)/2 satoshis of the recomputed one |
| `Averages.FundedIncrease` | coordinator/src/trade/mod.rs:1350-1454 | with any outstanding fee an increase stores margins at the leverages after the fee next to the leverages before it |
| `Averages.IncreaseScalesFundingFee` | coordinator/src/db/positions.rs:264-288 | the payer's stored margin then falls short of its leverage's by the fee scaled up as the position is, to the satoshi |
| `Schema.UpdateRows` | coordinator/src/db/positions.rs:183-190 | an update changes exactly the rows of the trader in the given states |
| `Schema.FirstRow` | coordinator/src/db/positions.rs:183-192 | the row that an update returns, or none if there is nothing to update |
| `Schema.LatestRow` | coordinator/src/db/positions.rs:61-72 | the most recently created row of the trader in the given states |
| `Schema.OutstandingEvents` | coordinator/src/funding_fee/db/funding_fee_events.rs:113-132 | exactly the unpaid events of the trader's position |
| `Schema.MarkPaid` | coordinator/src/funding_fee/db/funding_fee_events.rs:134-171 | pays exactly the linked events and changes nothing else but links |
| `Db.Database.CreateProtocol` | coordinator/src/db/dlc_protocols.rs:171-198 | inserts the protocol as pending unless its id exists or its previous protocol does not |
| `Db.Database.InsertProtocolFundingFeeEvents` | coordinator/src/funding_fee/db/protocol_funding_fee_events.rs:8-41 | links every event in order, or none if one does not exist |
| `Db.Database.SetProtocolToSuccess` | coordinator/src/db/dlc_protocols.rs:149-169 | sets state, contract and channel of an existing protocol |
| `Db.Database.SetProtocolToFailed` | coordinator/src/db/dlc_protocols.rs:133-147 | fails an existing protocol and nothing else |
| `Db.Database.UpdatePositionState` | coordinator/src/db/positions.rs:169-193 | moves the guarded rows, and is an error without one |
| `Db.Database.MarkFundingFeeEventsAsPaid` | coordinator/src/funding_fee/db/funding_fee_events.rs:134-171 | in place, what `MarkPaid` says |
| `Db.DlcProtocolExecutor.StartTradeProtocol` | coordinator/src/dlc_protocol.rs:130-258 | all of protocol, links and trade parameters, or none |
| `Db.DlcProtocolExecutor.StartRollover` | coordinator/src/dlc_protocol.rs:261-293 | all of protocol, links and rollover parameters, or none |
| `Db.DlcProtocolExecutor.FailDlcProtocol` | coordinator/src/dlc_protocol.rs:317-322 | fails the protocol in place |
| `Db.DlcProtocolExecutor.FinishDlcProtocol` | coordinator/src/dlc_protocol.rs:326-425 | statement by statement with rollback: either the finished tables or the tables as they were |
| `Db.DlcProtocolExecutor.FinishOpenPosition` | coordinator/src/dlc_protocol.rs:539-581 | the statements of an opening, in place |
| `Db.DlcProtocolExecutor.FinishResizePosition` | coordinator/src/dlc_protocol.rs:585-629 | the statements of a resize, in place |
| `Db.DlcProtocolExecutor.FinishSettle` | coordinator/src/dlc_protocol.rs:437-529 | the statements of a settlement, in place |
| `Db.DlcProtocolExecutor.FinishRollover` | coordinator/src/dlc_protocol.rs:633-665 | the statements of a rollover, in place |
| `Finishing.FinishSucceedsIff` | coordinator/src/dlc_protocol.rs:326-397 | finishing goes through exactly when the protocol and its parameters exist, a contract is given where one is needed, and, except for a rollover, some position is in the guard state |
| `Finishing.FinishMovesEverythingTogether` | coordinator/src/dlc_protocol.rs:437-629 | success of the protocol, the position's state, exactly one trade and the linked events change together; no other protocol, no other trader's position, no other event does |
| `Finishing.FinishedProtocolRow` | coordinator/src/dlc_protocol.rs:437-665 | the protocol's row takes state, channel and contract and keeps the rest |
| `Finishing.SettledRow` | coordinator/src/dlc_protocol.rs:437-529 | the settled row is closed at the trade's price with the trader's profit on the contracts traded, and the recorded trade carries the same profit |
| `Finishing.ReopenedRows` | coordinator/src/dlc_protocol.rs:539-629 | an opening or resize changes only the state of the rows it moves |
| `Finishing.ReplayIsRejected` | coordinator/src/dlc_protocol.rs:437-629 | a replay is rejected for openings and resizes, and for a settlement if and only if one position was closing |
| `Finishing.RolloverIsNotGuarded` | coordinator/src/dlc_protocol.rs:633-665 | a rollover can be finished again, and rewrites whichever position of the trader is rolling over, and no other |
| `Finishing.LinksSurviveIff` | coordinator/src/funding_fee/db/funding_fee_events.rs:160-165 | paying one protocol's events keeps another's links exactly when none of their row ids is the id of a paid event |
| `Finishing.FinishingCanLoseAnotherLink` | coordinator/src/funding_fee/db/funding_fee_events.rs:160-165 | two rollovers are started and both finish with success, and the event of one of them is still outstanding, so that its position's next protocol charges it again |
| `Proposals.FeeDueIsOutstanding` | coordinator/src/funding_fee.rs:304-314 | every unpaid event of the position is netted exactly once, and a positive sum is the trader's to pay |
| `Proposals.OpenWrites` | coordinator/src/trade/mod.rs:984-1045 | the columns of a new position, its protocol and its parameters, and what each stop leaves out |
| `Proposals.SettleWrites` | coordinator/src/trade/mod.rs:1127-1157 | the same for a settlement |
| `Proposals.ResizeWrites` | coordinator/src/trade/mod.rs:938-982 | the same for a resize, with the profit in row and parameters |
| `Proposals.RolloverWrites` | coordinator/src/node/rollover.rs:291-330 | the same for a rollover, with the margins and leverages after the funding fee |
| `Proposals.RefusedProposalWritesNothing` | coordinator/src/dlc_protocol.rs:130-293 | a proposal whose protocol cannot be created writes nothing |
| `Proposals.RejectionWrites` | coordinator/src/node.rs:453-517 | a rejection fails the protocol in any case and takes back exactly the rows of the phase unless it stops |
| `Proposals.FailedAnswerWrites` | coordinator/src/node.rs:134-197 | a last message without effect moves the channel, and fails the protocol if it was an error |
| `Proposals.CloseStartWrites` | coordinator/src/node.rs:586-606 | starting to close writes one pending protocol, or nothing |
| `Proposals.ClosedChannelFinishes` | coordinator/src/node/channel.rs:476-500 | the end of a collaborative close lets exactly its protocol succeed |
| `ProtocolSteps.FinishedTradeKeeps` | coordinator/src/dlc_protocol.rs:437-629 | the trade of a finished protocol is exactly what its position still missed |
| `ProtocolSteps.FinishedRolloverRows` | coordinator/src/db/positions.rs:293-321 | a finished rollover reopens the rolling-over position and keeps its contracts and fees, and with them the invariant |
| `ProtocolSteps.FinalizeKeeps` | coordinator/src/node.rs:270-427 | the last message keeps the invariant of the trader and touches no other trader |
| `ProtocolSteps.RejectKeeps` | coordinator/src/node.rs:428-518 | so does a rejection, including one that stops before the position of an established channel |
| `ProtocolSafety.ProposeOpenKeeps` | coordinator/src/trade/mod.rs:581-610 | so does proposing to open, wherever it stops |
| `ProtocolSafety.ProposeSettleKeeps` | coordinator/src/trade/mod.rs:1127-1157 | so does proposing to settle, if it is written completely |
| `ProtocolSafety.ProposeResizeKeeps` | coordinator/src/trade/mod.rs:938-982 | so does proposing to resize, wherever it stops |
| `ProtocolSafety.ProposeRolloverKeeps` | coordinator/src/node/rollover.rs:291-330 | so does proposing a rollover, wherever it stops |
| `ProtocolSafety.ResizeAddsTrade` | coordinator/src/trade/mod.rs:801-848 | the resized position is the old one plus the trade, whatever funding fee is due |
| `ProtocolSafety.StepKeepsWorld` | coordinator/src/node.rs:214-537 | every tolerated step keeps the invariant of all traders |
| `ProtocolSafety.ToleratedIffKept` | coordinator/src/node.rs:209-213 | the tolerated steps are exactly those that keep the trader's invariant: others stop where a position is to be reached, and where there is none a stop does no harm |
| `ProtocolSafety.UntoleratedStopBreaksSafety` | coordinator/src/node.rs:209-213 | after any step that is not tolerated the trader's next trade opens a second active position |
| `ProtocolRecords.PositionsAreTheirTrades` | coordinator/src/dlc_protocol.rs:437-629 | in every run from an empty database, with stops and failing messages, each position is the sum of its recorded trades as its state says, a resizing one misses exactly the trade of an unfinished resize of its trader, and no trader has two active positions |
| `ProtocolRecords.TradesAreFinishedProtocols` | coordinator/src/dlc_protocol.rs:437-629 | in every run, whatever stops and fails, the rows of `trades` are in bijection with the trade-carrying protocols that finished, each with that protocol's trade; all that are in `Success` are among them, and none is awaited |
| `ProtocolRecords.SuccessSurvivesIff` | coordinator/src/db/dlc_protocols.rs:133-147 | the bijection with the protocols in `Success` survives a step exactly when it is not a failing message that names one of them |
| `ProtocolRecords.PendingSurvivesIff` | coordinator/src/db/dlc_protocols.rs:133-147 | the awaited protocols stay pending in a step exactly when it is not a failing message that names one of them |
| `FundingCharges.ProposalCharges` | coordinator/src/funding_fee/db/protocol_funding_fee_events.rs:8-41 | a proposal is linked to exactly the outstanding events of its position and changes no other link |
| `FundingCharges.EventIsChargedOnce` | coordinator/src/funding_fee/db/funding_fee_events.rs:113-171 | in every run, an event of which no awaited protocol loses a link is charged by at most one protocol that finishes, and is paid when one does |
| `FundingCharges.ChargedEventStaysDueIff` | coordinator/src/funding_fee/db/funding_fee_events.rs:134-171 | when a protocol succeeds, an event that was due stays due exactly when the protocol has no link to it |
| `Coordinator.Node.Trade` | coordinator/src/trade/mod.rs:305-449 | in place, the step of a matched order |
| `Coordinator.Node.OpenPosition` | coordinator/src/trade/mod.rs:581-610 | offer, protocol and position written one after the other, up to where it stops |
| `Coordinator.Node.StartClosingPosition` | coordinator/src/trade/mod.rs:1127-1157 | the same for a settlement |
| `Coordinator.Node.ResizePosition` | coordinator/src/trade/mod.rs:938-982 | the same for a resize |
| `Coordinator.Node.ProposeRollover` | coordinator/src/node/rollover.rs:175-332 | the same for a rollover |
| `Coordinator.Node.Finalize` | coordinator/src/node.rs:312-321 | in place, the step of the last message, with the protocol failing on an error |
| `Coordinator.Node.Reject` | coordinator/src/node.rs:453-517 | in place, the step of a rejection |
| `Bookkeeping.ResizesAgree` | coordinator/src/trade/mod.rs:801-848 | the coordinator resizes the row exactly as the channel's arithmetic resizes the channel |
| `Bookkeeping.FinalizedFollows` | coordinator/src/dlc_protocol.rs:326-397 | the last message moves the row to the target of the proposal |
| `Bookkeeping.RejectedFollowsIff` | coordinator/src/node.rs:459-515 | a rejection restores the row to what the channel is, if and only if the proposal was not a resize |
| `Bookkeeping.RejectedResizeStays` | coordinator/src/node.rs:459-515 | a run in which any first trade is agreed on, repeated and rejected: the channel is free and the row keeps resizing with twice the contracts of its one trade |
| `Bookkeeping.DatabaseFollowsChannels` | coordinator/src/trade/mod.rs:305-449 | in every run without a fault, of all traders interleaved, the database holds for a channel at rest exactly one active row, open, with the channel's position, the sum of its trades |
| `Bookkeeping.DatabaseConservesCollateral` | coordinator/src/node/rollover.rs:213-264 | and, if every funding fee is covered, the margins in that row and the reserves of the channel are exactly the coins locked up |
| `FundingFee.CalculateFundingFee` | coordinator/src/funding_fee.rs:224-250 | the fee is within half a satoshi of the exact one |
| `FundingFee.FundingFeeIsOdd` | coordinator/src/funding_fee.rs:231-250 | long and short owe exactly opposite fees |
| `FundingFee.TotalFeesNearNet` | coordinator/src/funding_fee.rs:171-177 | the fees of n positions are within n/2 satoshis of the fee of the net position |
| `FundingFee.BalancedBookIsNearlyNeutral` | coordinator/src/funding_fee.rs:171-177 | with as many long as short contracts the coordinator is within n/2 satoshis of zero |
| `FundingFee.FundEachPots` | coordinator/src/position/models.rs:215-281 | charging events one by one leaves each pot at its closed form, saturating at zero |
| `FundingFee.NettingAgreesIff` | coordinator/src/funding_fee.rs:304-314 | netting never leaves less margin, and gives each party the same total exactly when that party does not both exceed its margin and earn |
| `FundingEvents.ActiveBefore` | coordinator/src/db/positions.rs:96-116 | exactly the open, rolling over and resizing positions created before the due date |
| `FundingEvents.GenerateFundingFeeEvents` | coordinator/src/funding_fee.rs:124-219 | in place, one attempt with its faults, of which the next three rows say what it does |
| `FundingEvents.AttemptAddsCharges` | coordinator/src/funding_fee.rs:124-219 | whatever faults, an attempt keeps all events, and each one that it adds is unpaid, for an active position's trader and costs the signed contracts at the fee of one contract, to the satoshi |
| `FundingEvents.AttemptChargesNet` | coordinator/src/funding_fee.rs:171-177 | all that an attempt charges is the fee of the net position, up to half a satoshi per event, and nearly nothing when longs and shorts balance |
| `FundingEvents.AttemptSucceedsIff` | coordinator/src/funding_fee.rs:124-219 | an attempt succeeds exactly when there is no rate, or a price is known and each active position's event can be written and, if new, announced |
| `FundingEvents.GenerateWithRetries` | coordinator/src/funding_fee.rs:82-103 | stops at the first success, after at most eleven attempts |
| `FundingEvents.RetryingEqualsOneRun` | coordinator/src/funding_fee.rs:122-124 | attempts that fail part-way and one success leave the table of a single undisturbed run |
| `FundingEvents.ExactlyOneEventPerPosition` | coordinator/src/funding_fee.rs:113-121 | after a success every position that was active has exactly one event of the period, even if the index price changed between attempts |
| `FundingEvents.AttemptsKeepKeys` | coordinator/src/funding_fee/db/funding_fee_events.rs:53-70 | no attempt loses or duplicates an event |
| `Matching.SortOrders` | coordinator/src/orderbook/trading.rs:493-508 | sorting is a permutation |
| `Matching.SortOrdersSorts` | coordinator/src/orderbook/trading.rs:493-508 | into price-time priority |
| `Matching.SortOrdersIsStable` | coordinator/src/orderbook/trading.rs:493-508 | that keeps orders of equal price and time in place |
| `Matching.FirstIsBest` | coordinator/src/orderbook/trading.rs:378-385 | the first order is the cheapest for a buyer or the dearest for a seller, then the oldest, and was listed first among its ties |
| `Matching.BestIsUnique` | coordinator/src/orderbook/trading.rs:378-385 | without ties it does not depend on how the orders are listed |
| `Matching.ConsumeOrders` | coordinator/src/orderbook/trading.rs:385-395 | the loop takes the shortest prefix that covers the quantity, or all orders |
| `Matching.MatchingFee` | coordinator/src/orderbook/trading.rs:409-420 | the fee is the rate times the bitcoin value to the satoshi, and zero when that is negative |
| `Matching.OppositeOrders` | coordinator/src/orderbook/trading.rs:378-383 | the orders of the other direction, each as often as it is listed |
| `Matching.OppositeOrdersKeepOrder` | coordinator/src/orderbook/trading.rs:378-383 | in the order in which they are listed |
| `Matching.MatchOrder` | coordinator/src/orderbook/trading.rs:366-473 | a market order is matched exactly when the best opposite order covers it or is the only one; taker and maker agree on quantity, price and fee; a limit order never is |
| `Messages.DlcHandler.StoreDlcMessage` | coordinator/src/dlc_handler.rs:119-127 | a known message or a failing upsert is an error and leaves the last message alone |
| `Messages.DlcHandler.SendDlcMessage` | coordinator/src/dlc_handler.rs:106-117 | sends only what was stored |
| `Messages.DlcHandler.SendLastDlcMessage` | coordinator/src/dlc_handler.rs:129-147 | sends the joined lookup, or nothing |
| `Messages.DlcHandler.OnConnect` | coordinator/src/dlc_handler.rs:149-177 | sends the same unless an offer to close is accepted instead |
| `Messages.DlcHandler.DeleteLast` | coordinator/src/db/last_outbound_dlc_message.rs:31-35 | forgets the last message of the peer and no other |
| `Messages.LookupIsLastStored` | coordinator/src/db/last_outbound_dlc_message.rs:31-86 | under any interleaving the lookup is the most recent successfully stored message since the last delete |
| `Messages.MessagesAreMentioned` | coordinator/src/db/dlc_messages.rs:67-85 | the message table holds exactly the messages that were stored or received |
| `Messages.RowsAreFirstMentions` | coordinator/src/db/dlc_messages.rs:67-85 | a row is what the first mention of its text said: inbound or not, peer and kind |
| `Messages.SentFollowsHistory` | coordinator/src/dlc_handler.rs:106-177 | exactly what goes out at each event: a new message stored without a fault, or the last stored one again, or nothing |
| `Messages.SentIsLastStored` | coordinator/src/dlc_handler.rs:106-147 | everything that goes out is that message |
| `Messages.CancelledPeerGetsNothingIff` | coordinator/src/trade/mod.rs:245-275 | after a cancelled offer a reconnect sends nothing exactly when nothing is stored for the peer after the delete |
| `Messages.QueuedOfferSurvivesCancel` | coordinator/src/trade/mod.rs:262-271 | an offer still in the queue when it is cancelled is sent at the next reconnect |
| `Inbound.MessageProcessor.ProcessDlcMessage` | coordinator/src/node.rs:214-537 | in place, one received message: known, verified, answered, recorded, dispatched |
| `Inbound.MessageProcessor.DispatchMessage` | coordinator/src/node.rs:270-520 | in place, the effects of each kind of message |
| `Inbound.MessageProcessor.ProcessIncomingDlcMessages` | coordinator/src/node.rs:120-197 | the loop, with the protocol failing on an error |
| `Inbound.DispatchedAtMostOnce` | coordinator/src/node.rs:232-268 | over any run a message is dispatched at most once |
| `Inbound.KnownHasNoEffect` | coordinator/src/node.rs:134-197 | from its recording onwards a message is neither dispatched nor fails a protocol |
| `Inbound.RedeliveryChangesNothing` | coordinator/src/node.rs:236-242 | once recorded, a redelivery changes nothing, whatever happened in between |
| `Inbound.RedeliveriesDoNotMatter` | coordinator/src/node.rs:236-242 | a run ends where the run without its redeliveries ends |
| `Inbound.CloseOfferIsRecordedIff` | coordinator/src/node.rs:545-606 | an offer to close starts its protocol exactly when the channel is not established, a settled one pays the coordinator what it expects, and the named protocol can be created, and is recorded exactly when besides it is accepted and inserted |
| `Inbound.AnswerIsPublished` | coordinator/src/node.rs:248-537 | an answer is published for storing once the message is accepted, and for sending once it took effect |
| `Inbound.UndispatchedMovesNothing` | coordinator/src/node.rs:189-268 | a delivery that is not recorded moves no position, records no trade, pays no event and lets no protocol succeed; all it can do is fail or create the protocol it refers to |
| `Inbound.DeliveryTakesSuccessIff` | coordinator/src/db/dlc_protocols.rs:133-147 | a delivery takes a protocol out of `Success` exactly when it is an error that refers to it or a recorded rejection that names it |
| `Inbound.RefusedRedeliveryTakesSuccess` | coordinator/src/node.rs:134-142 | a message that is refused twice sets a protocol back to failed that another one had finished in between |
| `Inbound.DispatchSucceedsIff` | coordinator/src/node.rs:270-520 | what each kind of message needs to take effect |
| `Inbound.EffectIsLostIff` | coordinator/src/node.rs:265-270 | a message is recorded although its effect is an error exactly when it is dispatched where it cannot take effect |
| `Inbound.LastMessageCanBeLost` | coordinator/src/node.rs:265-322 | a last message delivered while the channel has no contract is lost: no later delivery finishes the protocol, although it could finish |
| `Inbound.StoppedResizeLosesMessage` | coordinator/src/node.rs:265-322 | so is the last message of a resize whose coordinator stopped before it marked the position: recorded, the protocol failed, position and trades as before, for good |
| `Inbound.FinalizeMessageAgrees` | coordinator/src/node.rs:270-427 | the first delivery of a last message is the protocol's step |
| `Inbound.RejectMessageAgrees` | coordinator/src/node.rs:428-518 | the first delivery of a rejection is the protocol's step |
| `Refinement.DeliveryIsSteps` | coordinator/src/node.rs:120-197 | any delivery, known, refused, failing half-way or taking effect, does to tables and channels what its protocol steps do |
| `Refinement.RunIsSteps` | coordinator/src/node.rs:120-537 | so does every run of deliveries, own steps and outgoing messages |
| `Refinement.DeliveryToleratedIff` | coordinator/src/node.rs:209-213 | these steps are tolerated exactly when no settlement's last message and no rejection of an opening fails to be recorded while the trader has an active position |
| `Refinement.ReceivedTradesAreFinishedProtocols` | coordinator/src/node.rs:120-197 | whatever is received, the trades are in bijection with the protocols that finished |
| `Refinement.ReceivedPositionsAreTheirTrades` | coordinator/src/node.rs:120-197 | and in tolerated runs the positions are the sums of their trades, one active position per trader |
| `Refinement.DeliveryKeepsSuccessIff` | coordinator/src/node.rs:134-142 | the bijection with the protocols in `Success` survives a delivery exactly when it is not an error of a message that names one of them |
| `Inbound.CancelDeletesIff` | coordinator/src/trade/mod.rs:245-275 | cancelling deletes the last outbound message exactly when its own rejection goes through |

## Left out

- Bankruptcy.DecreaseIsCovered: stated up to one satoshi, because the margins before and after are rounded separately; the exact bound is `Bankruptcy.ExactPnlBoundedIff`, and from a margin that does not match its leverage nothing is promised.
- ProtocolRecords.PositionsAreTheirTrades: covers cooperative runs; with a force-close a new channel can be opened while the old position is still closing.
- Bookkeeping.DatabaseFollowsChannels: rejected resizes are excluded, because after one the row and the channel really differ.
- FundingEvents.RetryingEqualsOneRun: for attempts that see the same rate, positions and index price; with changing prices `FundingEvents.ExactlyOneEventPerPosition` still holds.
- Refinement.RunIsSteps: for what the DLC library and the app see to: the library accepts a last message or a rejection only for the protocol that the channel waits for, the app names that protocol, and an offer to close has a new id. Old apps that send no reference id, and offers by the trader to open or resize, are in `Inbound` but not in these runs.
- Inbound.DispatchedAtMostOnce: does not bound how often an error fails the protocol before the message is recorded, because the code does not; `Inbound.KnownHasNoEffect` and `Inbound.DeliveryTakesSuccessIff` say when it can and when it cannot.
- Representation error of `f32` and `Decimal`, and the widths of `i64` and `u64`.
- Liquidation prices and maintenance margins, which no amount depends on.
- Matched orders for zero contracts.
- The settlement amount of a partial close, which belongs to the two-step position resizing protocol.
- The payout curve, and the DLC library with its own collateral checks, signatures and transactions.
- Force-closing, its channel events, and the `dlc_channels` shadow table.
- The direction that a rollover passes to the payout curve.
- Order and match rows, invoices, notifications, the position feed, HTTP and websocket connections, schedules.
- Gaps in serial ids after a rolled-back transaction, and ties of creation timestamps.
- Collisions of the message hash.
- Errors of the connection pool.
