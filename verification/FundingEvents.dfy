/** Generating the funding fee events of a period, and why it is safe to try again. */
module FundingEvents {
  import opened Wrappers
  import opened Positions
  import opened Schema
  import opened Db
  import FundingFee
  import C = Channel

  datatype FundingRate = FundingRate(rate: real, endDate: int)

  /** How writing and announcing the event of one position turns out. */
  datatype Outcome = Fine | InsertFails | NotifyFails

  /** What one attempt finds: the rate of the last hour, the index price, and the faults it runs into. */
  datatype Attempt = Attempt(rate: Option<FundingRate>, indexPrice: Option<real>, faults: map<nat, Outcome>) {
    function OutcomeOf(positionId: nat): Outcome
    {
      if positionId in faults then faults[positionId] else Fine
    }
  }

  predicate IsDue(row: PositionRow, endDate: int)
  {
    row.state in {Open, Rollover, Resizing} && row.createdAt < endDate
  }

  /** `get_all_active_positions_open_before`. */
  function ActiveBefore(rows: seq<PositionRow>, endDate: int): (ids: seq<nat>)
    ensures forall i: nat :: i in ids <==> && i < |rows| && rows[i].state in {Open, Rollover, Resizing}
                                           && rows[i].createdAt < endDate
    ensures forall j, k :: 0 <= j < k < |ids| ==> ids[j] < ids[k]
  {
    if |rows| == 0 then []
    else
      var last := |rows| - 1;
      var ids := ActiveBefore(rows[..last], endDate);
      assert forall k :: 0 <= k < |ids| ==> ids[k] in ids;
      if IsDue(rows[last], endDate) then ids + [last] else ids
  }

  function EventFor(rows: seq<PositionRow>, i: nat, rate: FundingRate, indexPrice: real): FundingFeeEvent
    requires i < |rows| && indexPrice != 0.0
  {
    var position := rows[i].position;
    FundingFeeEvent(
      FundingFee.CalculateFundingFee(position.contracts, rate.rate, indexPrice, position.traderDirection),
      rows[i].trader, i, rate.endDate, indexPrice, rate.rate, false)
  }

  /** The events that a period asks for, one per position that was active before its end. */
  function DueEvents(rows: seq<PositionRow>, rate: FundingRate, indexPrice: real): (due: seq<FundingFeeEvent>)
    requires indexPrice != 0.0
    ensures |due| == |ActiveBefore(rows, rate.endDate)|
    ensures forall k :: 0 <= k < |due| ==>
              due[k].positionId == ActiveBefore(rows, rate.endDate)[k] && due[k].dueDate == rate.endDate
  {
    var ids := ActiveBefore(rows, rate.endDate);
    assert forall k :: 0 <= k < |ids| ==> ids[k] in ids;
    seq(|ids|, k requires 0 <= k < |ids| => EventFor(rows, ids[k], rate, indexPrice))
  }

  // ---------------------------------------------------------------- the table

  predicate SamePeriod(a: FundingFeeEvent, b: FundingFeeEvent)
  {
    a.positionId == b.positionId && a.dueDate == b.dueDate
  }

  predicate Exists(events: seq<FundingFeeEvent>, event: FundingFeeEvent)
  {
    exists k :: 0 <= k < |events| && SamePeriod(events[k], event)
  }

  /** The unique key of the table: one event per position and due date. */
  predicate KeysAreUnique(events: seq<FundingFeeEvent>)
  {
    forall j, k :: 0 <= j < k < |events| ==> !SamePeriod(events[j], events[k])
  }

  function Insert(events: seq<FundingFeeEvent>, event: FundingFeeEvent): seq<FundingFeeEvent>
  {
    if Exists(events, event) then events else events + [event]
  }

  function InsertAll(events: seq<FundingFeeEvent>, due: seq<FundingFeeEvent>): seq<FundingFeeEvent>
    decreases |due|
  {
    if |due| == 0 then events else InsertAll(Insert(events, due[0]), due[1..])
  }

  /** Inserting with faults: an event that is new but cannot be announced stays inserted. */
  function InsertWithFaults(events: seq<FundingFeeEvent>, due: seq<FundingFeeEvent>, attempt: Attempt):
    (seq<FundingFeeEvent>, bool)
    decreases |due|
  {
    if |due| == 0 then (events, true)
    else
      match attempt.OutcomeOf(due[0].positionId)
      case InsertFails => (events, false)
      case NotifyFails =>
        if Exists(events, due[0]) then InsertWithFaults(events, due[1..], attempt)
        else (Insert(events, due[0]), false)
      case Fine => InsertWithFaults(Insert(events, due[0]), due[1..], attempt)
  }

  /** One call of `generate_funding_fee_events`. */
  function AfterAttempt(events: seq<FundingFeeEvent>, rows: seq<PositionRow>, attempt: Attempt):
    (seq<FundingFeeEvent>, bool)
  {
    if attempt.rate.None? then (events, true)
    else if attempt.indexPrice.None? || attempt.indexPrice.value == 0.0 then (events, false)
    else InsertWithFaults(events, DueEvents(rows, attempt.rate.value, attempt.indexPrice.value), attempt)
  }

  /** The result of the first `n` attempts. */
  function AfterAttempts(events: seq<FundingFeeEvent>, rows: seq<PositionRow>, attempts: nat -> Attempt, n: nat):
    (seq<FundingFeeEvent>, bool)
  {
    if n == 0 then (events, false)
    else AfterAttempt(AfterAttempts(events, rows, attempts, n - 1).0, rows, attempts(n - 1))
  }

  method GenerateFundingFeeEvents(db: Database, attempt: Attempt) returns (ok: bool)
    modifies db`fundingFeeEvents
    ensures (db.fundingFeeEvents, ok) == old(AfterAttempt(db.fundingFeeEvents, db.positions, attempt))
  {
    if attempt.rate.None? { return true; }
    if attempt.indexPrice.None? || attempt.indexPrice.value == 0.0 { return false; }
    ghost var before := db.fundingFeeEvents;
    var due := DueEvents(db.positions, attempt.rate.value, attempt.indexPrice.value);
    var k := 0;
    while k < |due|
      invariant 0 <= k <= |due|
      invariant InsertWithFaults(db.fundingFeeEvents, due[k..], attempt) == InsertWithFaults(before, due, attempt)
    {
      assert due[k..][0] == due[k] && due[k..][1..] == due[k + 1..];
      var outcome := attempt.OutcomeOf(due[k].positionId);
      if outcome.InsertFails? { return false; }
      if !Exists(db.fundingFeeEvents, due[k]) {
        db.fundingFeeEvents := db.fundingFeeEvents + [due[k]];
        if outcome.NotifyFails? { return false; }
      }
      k := k + 1;
    }
    return true;
  }

  /** The first `n` attempts all fail. */
  predicate AllFail(events: seq<FundingFeeEvent>, rows: seq<PositionRow>, attempts: nat -> Attempt, n: nat)
  {
    n == 0 || (AllFail(events, rows, attempts, n - 1) && !AfterAttempts(events, rows, attempts, n).1)
  }

  const RETRIES := 10

  /** The scheduled job: it stops at the first attempt that succeeds, or after ten retries. */
  method GenerateWithRetries(db: Database, attempts: nat -> Attempt) returns (made: nat, ok: bool)
    modifies db`fundingFeeEvents
    ensures 1 <= made <= 11 && (ok || made == 11)
    ensures (db.fundingFeeEvents, ok) == old(AfterAttempts(db.fundingFeeEvents, db.positions, attempts, made))
    ensures old(AllFail(db.fundingFeeEvents, db.positions, attempts, made - 1))
  {
    ghost var before, rows := db.fundingFeeEvents, db.positions;
    var attemptsLeft := RETRIES;
    ok := GenerateFundingFeeEvents(db, attempts(0));
    made := 1;
    while !ok && attemptsLeft > 0
      invariant 0 <= attemptsLeft && made + attemptsLeft == RETRIES + 1
      invariant db.positions == rows
      invariant (db.fundingFeeEvents, ok) == AfterAttempts(before, rows, attempts, made)
      invariant AllFail(before, rows, attempts, made - 1)
      decreases attemptsLeft
    {
      attemptsLeft := attemptsLeft - 1;
      ok := GenerateFundingFeeEvents(db, attempts(made));
      made := made + 1;
    }
  }

  // ---------------------------------------------------------------- retrying

  lemma {:induction false} InsertAllSplits(
    events: seq<FundingFeeEvent>, a: seq<FundingFeeEvent>, b: seq<FundingFeeEvent>
  )
    ensures InsertAll(events, a + b) == InsertAll(InsertAll(events, a), b)
    decreases |a|
  {
    if |a| == 0 {
      assert a + b == b;
    } else {
      assert (a + b)[0] == a[0] && (a + b)[1..] == a[1..] + b;
      InsertAllSplits(Insert(events, a[0]), a[1..], b);
    }
  }

  /** Inserting never loses an event, and afterwards every due event exists. */
  lemma {:induction false} InsertAllCovers(events: seq<FundingFeeEvent>, due: seq<FundingFeeEvent>)
    ensures events <= InsertAll(events, due)
    ensures forall k :: 0 <= k < |due| ==> Exists(InsertAll(events, due), due[k])
    decreases |due|
  {
    if |due| > 0 {
      var one := Insert(events, due[0]);
      assert Exists(one, due[0]) by {
        if !Exists(events, due[0]) { assert SamePeriod(one[|events|], due[0]); }
      }
      InsertAllCovers(one, due[1..]);
      var after := InsertAll(one, due[1..]);
      forall k | 0 <= k < |due| ensures Exists(after, due[k]) {
        if k == 0 {
          var j :| 0 <= j < |one| && SamePeriod(one[j], due[0]);
          assert after[j] == one[j];
        } else {
          assert due[k] == due[1..][k - 1];
        }
      }
    }
  }

  lemma {:induction false} ExistingAreSkipped(events: seq<FundingFeeEvent>, due: seq<FundingFeeEvent>)
    requires forall k :: 0 <= k < |due| ==> Exists(events, due[k])
    ensures InsertAll(events, due) == events
    decreases |due|
  {
    if |due| > 0 {
      ExistingAreSkipped(events, due[1..]);
    }
  }

  /** An attempt that stops early has inserted the events of a first part of the positions. */
  lemma {:induction false} FaultsInsertPrefix(events: seq<FundingFeeEvent>, due: seq<FundingFeeEvent>, attempt: Attempt)
    returns (n: nat)
    ensures n <= |due| && InsertWithFaults(events, due, attempt).0 == InsertAll(events, due[..n])
    ensures InsertWithFaults(events, due, attempt).1 ==> n == |due|
    decreases |due|
  {
    if |due| == 0 || attempt.OutcomeOf(due[0].positionId).InsertFails? {
      n := 0;
    } else if attempt.OutcomeOf(due[0].positionId).NotifyFails? && !Exists(events, due[0]) {
      n := 1;
      assert due[..1][1..] == [];
    } else {
      var m := FaultsInsertPrefix(Insert(events, due[0]), due[1..], attempt);
      n := m + 1;
      assert due[..n][0] == due[0] && due[..n][1..] == due[1..][..m];
    }
  }

  /** Inserting everything after a first part is the same as inserting everything at once. */
  lemma PrefixIsAbsorbed(events: seq<FundingFeeEvent>, due: seq<FundingFeeEvent>, n: nat)
    requires n <= |due|
    ensures InsertAll(InsertAll(events, due[..n]), due) == InsertAll(events, due)
    ensures forall m: nat :: m <= |due| ==>
              InsertAll(InsertAll(events, due[..n]), due[..m]) == InsertAll(events, due[..if m < n then n else m])
  {
    forall m: nat | m <= |due|
      ensures InsertAll(InsertAll(events, due[..n]), due[..m]) == InsertAll(events, due[..if m < n then n else m])
    {
      var partly := InsertAll(events, due[..n]);
      InsertAllCovers(events, due[..n]);
      if m <= n {
        assert forall k :: 0 <= k < m ==> due[..m][k] == due[..n][k];
        ExistingAreSkipped(partly, due[..m]);
      } else {
        assert due[..m] == due[..n] + due[n..m];
        InsertAllSplits(partly, due[..n], due[n..m]);
        InsertAllSplits(events, due[..n], due[n..m]);
        ExistingAreSkipped(partly, due[..n]);
      }
    }
    assert due[..|due|] == due;
  }

  /** All attempts see the same rate, and the same index price unless it is not available. */
  predicate SameMarket(attempts: nat -> Attempt, n: nat, rate: FundingRate, indexPrice: real)
  {
    forall k: nat :: k < n ==>
      attempts(k).rate == Some(rate) && (attempts(k).indexPrice.Some? ==> attempts(k).indexPrice.value == indexPrice)
  }

  lemma {:induction false} AttemptsInsertPrefix(
    events: seq<FundingFeeEvent>, rows: seq<PositionRow>, attempts: nat -> Attempt, n: nat,
    rate: FundingRate, indexPrice: real
  ) returns (inserted: nat)
    requires indexPrice != 0.0 && SameMarket(attempts, n, rate, indexPrice)
    ensures var due := DueEvents(rows, rate, indexPrice);
            && inserted <= |due|
            && AfterAttempts(events, rows, attempts, n).0 == InsertAll(events, due[..inserted])
            && (AfterAttempts(events, rows, attempts, n).1 ==> inserted == |due|)
  {
    var due := DueEvents(rows, rate, indexPrice);
    if n == 0 {
      inserted := 0;
    } else {
      inserted := AttemptsInsertPrefix(events, rows, attempts, n - 1, rate, indexPrice);
      var attempt := attempts(n - 1);
      if attempt.indexPrice.Some? {
        var partly := InsertAll(events, due[..inserted]);
        var m := FaultsInsertPrefix(partly, due, attempt);
        PrefixIsAbsorbed(events, due, inserted);
        inserted := if m < inserted then inserted else m;
      }
    }
  }

  /** Any number of attempts of which the last one succeeds leave exactly what one undisturbed run leaves. */
  lemma RetryingEqualsOneRun(
    events: seq<FundingFeeEvent>, rows: seq<PositionRow>, attempts: nat -> Attempt, n: nat,
    rate: FundingRate, indexPrice: real
  )
    requires indexPrice != 0.0 && SameMarket(attempts, n, rate, indexPrice)
    requires AfterAttempts(events, rows, attempts, n).1
    ensures AfterAttempts(events, rows, attempts, n).0 == InsertAll(events, DueEvents(rows, rate, indexPrice))
    ensures AfterAttempt(events, rows, Attempt(Some(rate), Some(indexPrice), map[]))
            == AfterAttempts(events, rows, attempts, n)
  {
    var due := DueEvents(rows, rate, indexPrice);
    var inserted := AttemptsInsertPrefix(events, rows, attempts, n, rate, indexPrice);
    assert due[..inserted] == due;
    var undisturbed := Attempt(Some(rate), Some(indexPrice), map[]);
    NoFaultsNoFailure(events, due, undisturbed);
    var m := FaultsInsertPrefix(events, due, undisturbed);
    assert due[..m] == due;
  }

  lemma {:induction false} NoFaultsNoFailure(events: seq<FundingFeeEvent>, due: seq<FundingFeeEvent>, attempt: Attempt)
    requires attempt.faults == map[]
    ensures InsertWithFaults(events, due, attempt).1
    decreases |due|
  {
    if |due| > 0 {
      NoFaultsNoFailure(Insert(events, due[0]), due[1..], attempt);
    }
  }

  // ---------------------------------------------------------------- what an attempt adds

  /** The event of a position that is active: for its trader, not paid, and of the period. It costs the trader, to the
      satoshi, the signed contracts at the fee of one contract, so that longs pay when the rate is positive. */
  predicate Charges(event: FundingFeeEvent, rows: seq<PositionRow>, rate: FundingRate, indexPrice: real)
    requires indexPrice != 0.0
  {
    && event.positionId < |rows|
    && var row := rows[event.positionId];
       && row.state in {Open, Rollover, Resizing} && row.createdAt < rate.endDate
       && event.trader == row.trader && !event.paid
       && event.dueDate == rate.endDate && event.price == indexPrice && event.rate == rate.rate
       && CostsFee(event.amount, row.position, FundingFee.FeePerContract(rate.rate, indexPrice))
  }

  predicate CostsFee(amount: int, position: Position, feePerContract: real)
  {
    FundingFee.IsRounded(amount, position.SignedContracts() * feePerContract)
  }

  lemma EventCostsFee(rows: seq<PositionRow>, i: nat, rate: FundingRate, indexPrice: real)
    requires i < |rows| && indexPrice != 0.0
    ensures CostsFee(EventFor(rows, i, rate, indexPrice).amount, rows[i].position,
                     FundingFee.FeePerContract(rate.rate, indexPrice))
  {
    var position := rows[i].position;
    FundingFee.FeeIsLinear(FundingFee.Exposure(position.contracts, position.traderDirection), rate.rate, indexPrice);
  }

  lemma EventCharges(rows: seq<PositionRow>, i: nat, event: FundingFeeEvent, rate: FundingRate, indexPrice: real)
    requires i in ActiveBefore(rows, rate.endDate) && indexPrice != 0.0
    requires CostsFee(event.amount, rows[i].position, FundingFee.FeePerContract(rate.rate, indexPrice))
    requires event == FundingFeeEvent(event.amount, rows[i].trader, i, rate.endDate, indexPrice, rate.rate, false)
    ensures Charges(event, rows, rate, indexPrice)
  {
  }

  lemma DueEventsCharge(rows: seq<PositionRow>, rate: FundingRate, indexPrice: real)
    requires indexPrice != 0.0
    ensures forall k :: 0 <= k < |DueEvents(rows, rate, indexPrice)| ==>
              Charges(DueEvents(rows, rate, indexPrice)[k], rows, rate, indexPrice)
  {
    var due, ids := DueEvents(rows, rate, indexPrice), ActiveBefore(rows, rate.endDate);
    forall k | 0 <= k < |due| ensures Charges(due[k], rows, rate, indexPrice) {
      assert ids[k] in ids;
      EventCostsFee(rows, ids[k], rate, indexPrice);
      EventCharges(rows, ids[k], due[k], rate, indexPrice);
    }
  }

  lemma {:induction false} InsertAllAddsDue(events: seq<FundingFeeEvent>, due: seq<FundingFeeEvent>)
    ensures events <= InsertAll(events, due)
    ensures forall e :: e in InsertAll(events, due)[|events|..] ==> e in due
    decreases |due|
  {
    if |due| > 0 {
      var one := Insert(events, due[0]);
      InsertAllAddsDue(one, due[1..]);
      forall e | e in InsertAll(events, due)[|events|..] ensures e in due {
        if e !in InsertAll(one, due[1..])[|one|..] {
          assert e in one[|events|..];
        }
      }
    }
  }

  /** Whatever faults it runs into: an attempt keeps the events that are there, and each one that it adds charges a
      position that was active before the end of the period. */
  lemma AttemptAddsCharges(events: seq<FundingFeeEvent>, rows: seq<PositionRow>, attempt: Attempt)
    ensures var after := AfterAttempt(events, rows, attempt).0;
            && events <= after
            && (|events| < |after| ==>
                  attempt.rate.Some? && attempt.indexPrice.Some? && attempt.indexPrice.value != 0.0)
            && (forall k :: |events| <= k < |after| ==>
                  Charges(after[k], rows, attempt.rate.value, attempt.indexPrice.value))
  {
    if attempt.rate.Some? && attempt.indexPrice.Some? && attempt.indexPrice.value != 0.0 {
      var due := DueEvents(rows, attempt.rate.value, attempt.indexPrice.value);
      var after := AfterAttempt(events, rows, attempt).0;
      var n := FaultsInsertPrefix(events, due, attempt);
      InsertAllAddsDue(events, due[..n]);
      DueEventsCharge(rows, attempt.rate.value, attempt.indexPrice.value);
      forall k | |events| <= k < |after|
        ensures Charges(after[k], rows, attempt.rate.value, attempt.indexPrice.value)
      {
        assert after[k] in after[|events|..];
        assert after[k] in due;
      }
    }
  }

  // ---------------------------------------------------------------- all the fees of a period

  function AmountsIn(events: seq<FundingFeeEvent>): seq<int>
  {
    seq(|events|, k requires 0 <= k < |events| => events[k].amount)
  }

  /** The signed contracts of the positions that the events charge. */
  function ContractsIn(events: seq<FundingFeeEvent>, rows: seq<PositionRow>): seq<real>
  {
    seq(|events|, k requires 0 <= k < |events| =>
      var i := events[k].positionId;
      if i < |rows| then rows[i].position.SignedContracts() else 0.0)
  }

  /** What an attempt adds to the table. */
  function AddedBy(events: seq<FundingFeeEvent>, rows: seq<PositionRow>, attempt: Attempt):
    (added: seq<FundingFeeEvent>)
    ensures AfterAttempt(events, rows, attempt).0 == events + added
  {
    AttemptAddsCharges(events, rows, attempt);
    AfterAttempt(events, rows, attempt).0[|events|..]
  }

  lemma AddedCharge(events: seq<FundingFeeEvent>, rows: seq<PositionRow>, attempt: Attempt)
    requires attempt.rate.Some? && attempt.indexPrice.Some? && attempt.indexPrice.value != 0.0
    ensures forall k :: 0 <= k < |AddedBy(events, rows, attempt)| ==>
              Charges(AddedBy(events, rows, attempt)[k], rows, attempt.rate.value, attempt.indexPrice.value)
  {
    AttemptAddsCharges(events, rows, attempt);
    var after, added := AfterAttempt(events, rows, attempt).0, AddedBy(events, rows, attempt);
    assert forall k :: 0 <= k < |added| ==> added[k] == after[|events| + k];
  }

  lemma ChargesAreNear(events: seq<FundingFeeEvent>, rows: seq<PositionRow>, rate: FundingRate, indexPrice: real)
    requires indexPrice != 0.0
    requires forall k :: 0 <= k < |events| ==> Charges(events[k], rows, rate, indexPrice)
    ensures FundingFee.AreNear(AmountsIn(events), FundingFee.Scaled(ContractsIn(events, rows),
                                                                    FundingFee.FeePerContract(rate.rate, indexPrice)))
  {
  }

  /** What an attempt charges all traders together is the fee of their net position, up to half a satoshi for each
      event: with as many long as short contracts the coordinator is left with at most that. */
  lemma AttemptChargesNet(events: seq<FundingFeeEvent>, rows: seq<PositionRow>, attempt: Attempt)
    requires attempt.rate.Some? && attempt.indexPrice.Some? && attempt.indexPrice.value != 0.0
    ensures var added := AddedBy(events, rows, attempt);
            var owed := C.Sum(AmountsIn(added));
            var net := FundingFee.Total(ContractsIn(added, rows));
            var fee := FundingFee.FeePerContract(attempt.rate.value.rate, attempt.indexPrice.value);
            && FundingFee.IsNearNet(owed, net, fee, |added|)
            && (net == 0.0 ==> 0 - |added| <= 2 * owed <= |added|)
  {
    var added := AddedBy(events, rows, attempt);
    var fee := FundingFee.FeePerContract(attempt.rate.value.rate, attempt.indexPrice.value);
    AddedCharge(events, rows, attempt);
    ChargesAreNear(added, rows, attempt.rate.value, attempt.indexPrice.value);
    ChargesNet(added, rows, fee);
  }

  lemma ChargesNet(events: seq<FundingFeeEvent>, rows: seq<PositionRow>, fee: real)
    requires FundingFee.AreNear(AmountsIn(events), FundingFee.Scaled(ContractsIn(events, rows), fee))
    ensures var (owed, net) := (C.Sum(AmountsIn(events)), FundingFee.Total(ContractsIn(events, rows)));
            && FundingFee.IsNearNet(owed, net, fee, |events|)
            && (net == 0.0 ==> 0 - |events| <= 2 * owed <= |events|)
  {
    FundingFee.SumNearScaled(AmountsIn(events), ContractsIn(events, rows), fee);
    if FundingFee.Total(ContractsIn(events, rows)) == 0.0 {
      FundingFee.BalancedIsNearZero(C.Sum(AmountsIn(events)), fee, |events|);
    }
  }

  // ---------------------------------------------------------------- which attempts succeed

  /** Whether the due event `k` stops the attempt: it cannot be written, or it is new and cannot be announced. */
  predicate Stops(events: seq<FundingFeeEvent>, due: seq<FundingFeeEvent>, attempt: Attempt, k: nat)
    requires k < |due|
  {
    match attempt.OutcomeOf(due[k].positionId)
    case Fine => false
    case InsertFails => true
    case NotifyFails => !exists j :: 0 <= j < |events| && SamePeriod(events[j], due[k])
  }

  /** An attempt inserts what comes before the first event that stops it, and that event too if only its announcement
      failed; it succeeds exactly when nothing stops it. */
  lemma {:induction false} StopsAtFirstFault(
    events: seq<FundingFeeEvent>, due: seq<FundingFeeEvent>, attempt: Attempt, n: nat
  )
    requires KeysAreUnique(due)
    requires n <= |due| && forall k :: 0 <= k < n ==> !Stops(events, due, attempt, k)
    requires n < |due| ==> Stops(events, due, attempt, n)
    ensures var m := if n == |due| then n
                     else if attempt.OutcomeOf(due[n].positionId).NotifyFails? then n + 1 else n;
            InsertWithFaults(events, due, attempt) == (InsertAll(events, due[..m]), n == |due|)
    decreases |due|
  {
    if |due| == 0 {
    } else if n == 0 {
      assert due[..1][1..] == [];
    } else {
      var one := Insert(events, due[0]);
      forall k | 0 <= k < |due| - 1 ensures Stops(one, due[1..], attempt, k) <==> Stops(events, due, attempt, k + 1) {
        assert !SamePeriod(due[0], due[k + 1]);
        assert due[1..][k] == due[k + 1];
        InsertKeepsOthers(events, due[0], due[k + 1]);
      }
      StopsAtFirstFault(one, due[1..], attempt, n - 1);
      assert !Stops(events, due, attempt, 0);
      assert forall m :: 1 <= m <= |due| ==> due[..m][0] == due[0] && due[..m][1..] == due[1..][..m - 1];
    }
  }

  lemma InsertKeepsOthers(events: seq<FundingFeeEvent>, event: FundingFeeEvent, other: FundingFeeEvent)
    requires !SamePeriod(event, other)
    ensures Exists(Insert(events, event), other) <==> Exists(events, other)
  {
    var one := Insert(events, event);
    if Exists(events, other) {
      var k :| 0 <= k < |events| && SamePeriod(events[k], other);
      assert one[k] == events[k];
    }
    if Exists(one, other) {
      var k :| 0 <= k < |one| && SamePeriod(one[k], other);
      assert k < |events|;
    }
  }

  lemma {:induction false} FirstStop(
    events: seq<FundingFeeEvent>, due: seq<FundingFeeEvent>, attempt: Attempt, from: nat
  ) returns (n: nat)
    requires from <= |due|
    ensures from <= n <= |due| && (n < |due| ==> Stops(events, due, attempt, n))
    ensures forall k :: from <= k < n ==> !Stops(events, due, attempt, k)
    decreases |due| - from
  {
    if from == |due| || Stops(events, due, attempt, from) {
      n := from;
    } else {
      n := FirstStop(events, due, attempt, from + 1);
    }
  }

  /** An attempt succeeds exactly when there is no rate yet, or a price is known and the event of every active position
      can be written and, unless it is there already, announced. */
  lemma AttemptSucceedsIff(events: seq<FundingFeeEvent>, rows: seq<PositionRow>, attempt: Attempt)
    ensures AfterAttempt(events, rows, attempt).1
            <==> || attempt.rate.None?
                 || (&& attempt.indexPrice.Some? && attempt.indexPrice.value != 0.0
                     && forall i :: i in ActiveBefore(rows, attempt.rate.value.endDate) ==>
                          && !attempt.OutcomeOf(i).InsertFails?
                          && (attempt.OutcomeOf(i).NotifyFails? ==>
                                exists j :: && 0 <= j < |events| && events[j].positionId == i
                                            && events[j].dueDate == attempt.rate.value.endDate))
  {
    if attempt.rate.Some? && attempt.indexPrice.Some? && attempt.indexPrice.value != 0.0 {
      var endDate := attempt.rate.value.endDate;
      var ids := ActiveBefore(rows, endDate);
      var due := DueEvents(rows, attempt.rate.value, attempt.indexPrice.value);
      var n := FirstStop(events, due, attempt, 0);
      StopsAtFirstFault(events, due, attempt, n);
      if n < |due| {
        assert due[n].positionId == ids[n] && ids[n] in ids;
        assert forall j :: 0 <= j < |events| && events[j].positionId == ids[n] && events[j].dueDate == endDate
                           ==> SamePeriod(events[j], due[n]);
      } else {
        forall i | i in ids
          ensures !attempt.OutcomeOf(i).InsertFails?
          ensures attempt.OutcomeOf(i).NotifyFails? ==>
                    exists j :: 0 <= j < |events| && events[j].positionId == i && events[j].dueDate == endDate
        {
          var k :| 0 <= k < |ids| && ids[k] == i;
          assert !Stops(events, due, attempt, k);
        }
      }
    }
  }

  // ---------------------------------------------------------------- exactly one event

  lemma {:induction false} InsertAllKeepsKeys(events: seq<FundingFeeEvent>, due: seq<FundingFeeEvent>)
    requires KeysAreUnique(events)
    ensures KeysAreUnique(InsertAll(events, due))
    decreases |due|
  {
    if |due| > 0 {
      InsertAllKeepsKeys(Insert(events, due[0]), due[1..]);
    }
  }

  /** Even when the index price changes between attempts: after a success every position that was active before the
      end of the period has exactly one event for it, and earlier events are as they were. */
  lemma ExactlyOneEventPerPosition(events: seq<FundingFeeEvent>, rows: seq<PositionRow>, attempt: Attempt, i: nat)
    requires KeysAreUnique(events) && attempt.rate.Some? && AfterAttempt(events, rows, attempt).1
    requires i < |rows| && IsDue(rows[i], attempt.rate.value.endDate)
    ensures var after := AfterAttempt(events, rows, attempt).0;
            var isIts := (e: FundingFeeEvent) => e.positionId == i && e.dueDate == attempt.rate.value.endDate;
            && events <= after
            && (exists k :: 0 <= k < |after| && isIts(after[k])
                            && forall j :: 0 <= j < |after| && isIts(after[j]) ==> j == k)
  {
    var due := DueEvents(rows, attempt.rate.value, attempt.indexPrice.value);
    var n := FaultsInsertPrefix(events, due, attempt);
    assert due[..n] == due;
    var after := InsertAll(events, due);
    InsertAllCovers(events, due);
    InsertAllKeepsKeys(events, due);
    var ids := ActiveBefore(rows, attempt.rate.value.endDate);
    assert i in ids;
    var d :| 0 <= d < |ids| && ids[d] == i;
    var k :| 0 <= k < |after| && SamePeriod(after[k], due[d]);
    forall j | 0 <= j < |after| && after[j].positionId == i && after[j].dueDate == attempt.rate.value.endDate
      ensures j == k
    {
      assert j < k ==> !SamePeriod(after[j], after[k]);
      assert k < j ==> !SamePeriod(after[k], after[j]);
    }
  }

  /** No attempt, whatever its market and its faults, loses an event or duplicates one. */
  lemma {:induction false} AttemptsKeepKeys(
    events: seq<FundingFeeEvent>, rows: seq<PositionRow>, attempts: nat -> Attempt, n: nat
  )
    requires KeysAreUnique(events)
    ensures KeysAreUnique(AfterAttempts(events, rows, attempts, n).0)
    ensures events <= AfterAttempts(events, rows, attempts, n).0
  {
    if n > 0 {
      AttemptsKeepKeys(events, rows, attempts, n - 1);
      var attempt := attempts(n - 1);
      if attempt.rate.Some? && attempt.indexPrice.Some? && attempt.indexPrice.value != 0.0 {
        var due := DueEvents(rows, attempt.rate.value, attempt.indexPrice.value);
        var partly := AfterAttempts(events, rows, attempts, n - 1).0;
        var m := FaultsInsertPrefix(partly, due, attempt);
        InsertAllCovers(partly, due[..m]);
        InsertAllKeepsKeys(partly, due[..m]);
      }
    }
  }
}
