/**
  The use cases as the source writes them, statement by statement on mutable repositories and aggregates,
  each proved equal to its specification function
  (src/modules/conversion/application/accept-quote.use-case.ts,
  src/modules/conversion/application/process-conversion-execution.use-case.ts).
*/
module UseCases {
  import opened Common
  import opened Moneys
  import opened Wallets
  import opened Conversions
  import opened Pricing
  import opened Tables
  import opened Transactions
  import opened Execution
  import opened Repositories

  /** The repositories one transaction works on, and the exchange's own table. */
  class UnitOfWork {
    const wallets: WalletRepository
    const quotes: QuoteRepository
    const conversions: ConversionRepository
    const outbox: OutboxRepository
    const idempotency: IdempotencyRepository
    const processed: ProcessedMessageRepository
    const exchange: FakeExchange

    constructor (mode: Outcome)
      ensures fresh(Repr()) && conversions.Valid()
      ensures Contents() == Db(map[], map[], map[], map[], map[], map[], map[])
    {
      wallets := new WalletRepository();
      quotes := new QuoteRepository();
      conversions := new ConversionRepository();
      outbox := new OutboxRepository();
      idempotency := new IdempotencyRepository();
      processed := new ProcessedMessageRepository();
      exchange := new FakeExchange(mode);
    }

    function Repr(): set<object> {
      {wallets, quotes, conversions, outbox, idempotency, processed, exchange}
    }

    function Contents(): Db
      reads Repr()
    {
      Db(wallets.rows, quotes.rows, conversions.rows, outbox.rows, idempotency.records, processed.markers,
         exchange.orders)
    }

    /** A rollback: every table of the transaction is as it was. */
    method Rollback(before: Db)
      requires before.exchange == exchange.orders && AllChecked(before.conversions)
      modifies wallets, quotes, conversions, outbox, idempotency, processed
      ensures Contents() == before && conversions.Valid()
    {
      wallets.rows, quotes.rows, conversions.rows := before.wallets, before.quotes, before.conversions;
      outbox.rows, idempotency.records, processed.markers := before.outbox, before.records, before.markers;
    }

    // ----- accepting a quote

    /** execute, for a trimmed request with fresh ids: the transaction and, where it found its key in progress,
        the wait for the winner outside it (`clock` and `found` as in WaitForIdempotentCompletion). */
    method Execute(key: Id, quoteId: Id, now: int, id: Id, event: Id,
                   clock: nat -> int, found: nat -> Lookup, start: int, maxWaitMs: nat, pollMs: nat)
      returns (result: AcceptResult, looks: nat)
      requires conversions.Valid() && id !in conversions.rows && event !in outbox.rows
      requires pollMs >= 1 && clock(0) >= start
      requires forall i: nat :: clock(i + 1) >= clock(i) + pollMs
      modifies wallets, quotes, conversions, outbox, idempotency, processed
      ensures conversions.Valid()
      ensures var seen := if quoteId in old(quotes.rows) then Some(old(quotes.rows)[quoteId]) else None;
              var (after, answer) := Accept(old(Contents()), key, quoteId, seen, now, id, event);
              && Contents() == after
              && (answer != Rejected(IdempotencyInProgress) ==> result == answer && looks == 0)
              && (answer == Rejected(IdempotencyInProgress) ==>
                    && looks >= 1
                    && (forall i :: 0 <= i < looks - 1 ==> clock(i) <= start + maxWaitMs && found(i).InProgress?)
                    && !(clock(looks - 1) <= start + maxWaitMs && found(looks - 1).InProgress?)
                    && var last := found(looks - 1);
                    result == if clock(looks - 1) <= start + maxWaitMs && last.Finished? && last.requestHash == quoteId
                              then Answered(last.answer.statusCode, last.answer.body, true)
                              else Rejected(IdempotencyInProgress))
      ensures key in old(idempotency.records) ==>
                && Contents() == old(Contents())
                && var r := old(idempotency.records)[key];
                && (looks >= 1 <==> r.requestHash == quoteId && r.response.None?)
                && (r.requestHash != quoteId ==> result == Rejected(IdempotencyKeyReuse))
                && (r.requestHash == quoteId && r.response.Some? ==>
                      result == Answered(r.response.value.statusCode, r.response.value.body, true))
    {
      looks := 0;
      result := AcceptQuote(key, quoteId, now, id, event);
      if result == Rejected(IdempotencyInProgress) {
        var replay: Option<Response>;
        replay, looks := WaitForIdempotentCompletion(clock, found, start, maxWaitMs, pollMs, quoteId);
        if replay.Some? {
          result := Answered(replay.value.statusCode, replay.value.body, true);
        }
      }
    }

    /** The transaction of execute. */
    method AcceptQuote(key: Id, quoteId: Id, now: int, id: Id, event: Id) returns (result: AcceptResult)
      requires conversions.Valid() && id !in conversions.rows && event !in outbox.rows
      modifies wallets, quotes, conversions, outbox, idempotency, processed
      ensures conversions.Valid()
      ensures var seen := if quoteId in old(quotes.rows) then Some(old(quotes.rows)[quoteId]) else None;
              (Contents(), result) == Accept(old(Contents()), key, quoteId, seen, now, id, event)
      ensures key in old(idempotency.records) ==>
                && Contents() == old(Contents())
                && var r := old(idempotency.records)[key];
                result == if r.requestHash != quoteId then Rejected(IdempotencyKeyReuse)
                          else match r.response
                               case None => Rejected(IdempotencyInProgress)
                               case Some(answer) => Answered(answer.statusCode, answer.body, true)
      ensures key !in old(idempotency.records) ==>
                result != Rejected(IdempotencyKeyReuse) && result != Rejected(IdempotencyInProgress)
                && result != Rejected(IdempotencyRace) && (result.Answered? ==> !result.replay)
    {
      hide AcceptWork;
      var before := Contents();
      var began := idempotency.TryBegin(key, quoteId, now);
      if !began {
        var existing := idempotency.Find(key);
        if existing.Missing? {
          return Rejected(IdempotencyRace);
        }
        if existing.requestHash != quoteId {
          return Rejected(IdempotencyKeyReuse);
        }
        if existing.InProgress? {
          return Rejected(IdempotencyInProgress);
        }
        return Answered(existing.answer.statusCode, existing.answer.body, true);
      }
      var outcome := AcceptClaimed(key, quoteId, now, id, event);
      match outcome {
        case Ok(body) =>
          result := Answered(201, body, false);
        case Err(e) =>
          Rollback(before);
          result := Rejected(e);
      }
    }

    method AcceptClaimed(key: Id, quoteId: Id, now: int, id: Id, event: Id) returns (result: Result<Body, AcceptError>)
      requires conversions.Valid() && id !in conversions.rows && event !in outbox.rows
      modifies wallets, quotes, conversions, outbox, idempotency
      ensures conversions.Valid()
      ensures var seen := if quoteId in old(quotes.rows) then Some(old(quotes.rows)[quoteId]) else None;
              match AcceptWork(old(Contents()), key, quoteId, seen, now, id, event)
              case Ok((after, body)) => Contents() == after && result == Ok(body)
              case Err(e) => result == Err(e)
      ensures result == Err(QuoteNotFound) <==> quoteId !in old(quotes.rows)
      ensures quoteId in old(quotes.rows) ==>
                var q, k := old(quotes.rows)[quoteId], WalletKey(old(quotes.rows)[quoteId].userId,
                                                                 old(quotes.rows)[quoteId].source.asset);
                && (result == Err(QuoteAlreadyAcceptedError) <==> q.status == Accepted)
                && (result == Err(QuoteExpiredError) <==> q.status == Active && now > q.expiresAt)
                && (result == Err(QuoteAcceptConflict) <==> q.status == Expired)
                && (result == Err(InsufficientAvailableBalance) ==>
                      k !in old(wallets.rows) || old(wallets.rows)[k].available < q.source.units)
                && (result.Ok? ==> k in old(wallets.rows) && old(wallets.rows)[k].available >= q.source.units)
      ensures result.Err? ==> result.error !in {IdempotencyKeyReuse, IdempotencyInProgress, IdempotencyRace}
    {
      hide ReserveAndBind, Finish;
      var found := quotes.FindById(quoteId);
      if found.None? {
        return Err(QuoteNotFound);
      }
      var quote := new Quote.Reconstitute(found.value);
      var refusal := quote.Accept(now);
      if refusal.Some? {
        return Err(if refusal.value == AlreadyAccepted then QuoteAlreadyAcceptedError else QuoteExpiredError);
      }
      var persisted := quotes.SaveAcceptedQuote(quoteId, quote.Row(), now);
      if !persisted.Persisted? {
        return Err(QuoteAcceptConflict);
      }
      var terms := quote.Row();
      var created := Conversion.CreateFor(quoteId, terms.userId, terms.source, terms.target, now);
      if created.Err? {
        return Err(InternalError);
      }
      var conversion := created.value;
      var saved := conversions.Save(id, conversion.Row());
      if !saved {
        return Err(InternalError);
      }
      ghost var middle := old(Contents()).(quotes := quotes.rows);
      var error := ReserveFor(conversion, middle, id, event);
      if error.Some? {
        return Err(error.value);
      }
      result := Enqueue(conversion.Row(), key, now, id, event);
    }

    /** The reservation, and the two transitions it allows, saved again. */
    method ReserveFor(conversion: Conversion, ghost before: Db, id: Id, event: Id) returns (error: Option<AcceptError>)
      requires id !in before.conversions
      requires Contents() == before.(conversions := before.conversions[id := conversion.Row()])
      requires conversions.Valid()
      modifies wallets, conversions, conversion
      ensures conversions.Valid()
      ensures match ReserveAndBind(before, id, event, old(conversion.Row()))
              case Ok(after) =>
                && error.None? && Contents() == after
                && id in after.conversions && after.conversions[id] == conversion.Row()
              case Err(e) => error == Some(e)
      ensures var k := WalletKey(conversion.userId, conversion.sourceAmount.asset);
              && error in {None, Some(InsufficientAvailableBalance), Some(InternalError)}
              && (error == Some(InsufficientAvailableBalance) <==>
                  k !in before.wallets || before.wallets[k].available < conversion.sourceAmount.units)
    {
      hide UpdateRow;
      var refused := wallets.ReserveFunds(conversion.userId, conversion.sourceAmount);
      if refused.Some? {
        return Some(if refused.value == ConstraintViolated then InternalError else InsufficientAvailableBalance);
      }
      var wrong := conversion.ReserveFunds();
      if wrong.Some? {
        return Some(InternalError);
      }
      wrong := conversion.BindEvent(event);
      if wrong.Some? {
        return Some(InternalError);
      }
      var saved := conversions.Save(id, conversion.Row());
      error := None;
    }

    method Enqueue(c: ConversionRow, key: Id, now: int, id: Id, event: Id) returns (result: Result<Body, AcceptError>)
      requires id in conversions.rows && conversions.rows[id] == c
      modifies outbox, idempotency
      ensures match Finish(old(Contents()), key, now, id, event)
              case Ok((after, body)) => Contents() == after && result == Ok(body)
              case Err(e) => result == Err(e)
      ensures result.Err? ==> result.error == InternalError
    {
      hide PayloadOf, ShortText;
      var stored := outbox.Enqueue(event, OutboxRow(PayloadOf(event, id, c), now, None));
      if !stored {
        return Err(InternalError);
      }
      var body := Body(id, c.quoteId, c.userId, c.status, c.source.asset.Code(), c.target.asset.Code(),
                       ShortText(c.source), ShortText(c.target), c.createdAt);
      var completed := idempotency.Complete(key, Response(201, body, id));
      if !completed {
        return Err(InternalError);
      }
      result := Ok(body);
    }

    // ----- executing a conversion

    /** handleMessage and process: the whole handler, up to how it resolves or rejects. */
    method ProcessMessage(p: Payload, now: int) returns (pc: Pc)
      requires conversions.Valid()
      modifies wallets, conversions, processed, exchange`orders
      ensures conversions.Valid()
      ensures (Contents(), pc) == RunHandler(old(Contents()), p, Received, old(exchange.Mode(p.eventId)), now)
    {
      hide RunHandler, PayloadMatches, PlaceOrder, SameCommand, ReadResult, Settle, RequestIfReserved;
      ghost var mode := exchange.Mode(p.eventId);
      RunUnfolds(Contents(), p, Received, mode, now);
      if p.eventType != EVENT_TYPE {
        RunUnfolds(Contents(), p, Failing(InvalidMessage), mode, now);
        return Failing(InvalidMessage);
      }
      var done := processed.Exists(p.eventId);
      if done {
        RunUnfolds(Contents(), p, Returned, mode, now);
        return Returned;
      }
      RunUnfolds(Contents(), p, Unprocessed, mode, now);
      RunUnfolds(Contents(), p, Rereading, mode, now);
      ghost var before := Contents();
      var row := conversions.MarkExecutionRequestedIfFundsReserved(p.conversionId, p.eventId);
      ghost var inspected := Inspect(conversions.rows, p);
      assert RunHandler(before, p, Received, mode, now) == RunHandler(Contents(), p, inspected, mode, now);
      RunUnfolds(Contents(), p, inspected, mode, now);
      if row.None? {
        return Failing(ConversionNotFound);
      }
      var c := row.value;
      if !PayloadMatches(p, c) {
        return Failing(PayloadMismatch);
      }
      if c.eventId != Some(p.eventId) {
        return Failing(BoundToAnotherEvent);
      }
      if Terminal(c.status) {
        var _ := processed.TryRecord(p.eventId, Marker(p.conversionId, OutcomeOf(c.status)));
        RunUnfolds(Contents(), p, Returned, mode, now);
        return Returned;
      }
      if c.status != ExecutionRequested {
        return Failing(UnexpectedStatus);
      }
      pc := ExecuteAndSettle(p, now);
    }

    /** The exchange call alone. */
    method CallExchange(p: Payload) returns (result: Option<ExecutionResult>)
      modifies exchange`orders
      ensures match PlaceOrder(old(exchange.orders), p, old(exchange.Mode(p.eventId)))
              case Err(_) => Contents() == old(Contents()) && result.None?
              case Ok(after) =>
                && Contents() == old(Contents()).(exchange := after)
                && result == match ReadResult(after, p)
                             case Executed(o, reason) => Some(ExecutionResult(o, reason))
                             case _ => None
    {
      hide PlaceOrder, ReadResult, Numeric;
      result := exchange.Execute(p);
    }

    /** The exchange call, and the settlement of its result. */
    method ExecuteAndSettle(p: Payload, now: int) returns (pc: Pc)
      requires conversions.Valid()
      modifies wallets, conversions, processed, exchange`orders
      ensures conversions.Valid()
      ensures (Contents(), pc) == RunHandler(old(Contents()), p, Requested, old(exchange.Mode(p.eventId)), now)
    {
      hide RunHandler, PayloadMatches, PlaceOrder, SameCommand, Settle, RequestIfReserved, Inspect;
      ghost var mode := exchange.Mode(p.eventId);
      RunUnfolds(Contents(), p, Requested, mode, now);
      RunUnfolds(Contents(), p, Failing(ExchangeRefused), mode, now);
      var result := CallExchange(p);
      RunUnfolds(Contents(), p, Placed, mode, now);
      RunUnfolds(Contents(), p, Failing(ExchangeRefused), mode, now);
      if result.None? {
        return Failing(ExchangeRefused);
      }
      RunUnfolds(Contents(), p, Executed(result.value.outcome, result.value.reason), mode, now);
      pc := SettleResultOf(p, result.value.outcome, result.value.reason, now);
      RunUnfolds(Contents(), p, pc, mode, now);
    }

    /** The settlement transaction. */
    method SettleResultOf(p: Payload, outcome: Outcome, reason: Option<string>, now: int) returns (pc: Pc)
      requires conversions.Valid()
      modifies wallets, conversions, processed
      ensures conversions.Valid()
      ensures (Contents(), pc) == match Settle(old(Contents()), p, outcome, reason, now)
                                  case AlreadyClaimed => (old(Contents()), Returned)
                                  case Settled(after) => (after, Returned)
                                  case RolledBack(e) => (old(Contents()), Failing(SettlementRefused(e)))
    {
      hide SettleClaimed;
      var before := Contents();
      var claimed := processed.TryRecord(p.eventId, Marker(p.conversionId, outcome));
      if !claimed {
        return Returned;
      }
      var error := SettleAfterClaim(p, outcome, reason, now);
      if error.Some? {
        RollbackSettlement(before);
        return Failing(SettlementRefused(error.value));
      }
      pc := Returned;
    }

    method SettleAfterClaim(p: Payload, outcome: Outcome, reason: Option<string>, now: int)
      returns (error: Option<SettleError>)
      requires conversions.Valid()
      modifies wallets, conversions
      ensures conversions.Valid()
      ensures match SettleClaimed(old(Contents()), p, outcome, reason, now)
              case Ok(after) => error.None? && Contents() == after
              case Err(e) => error == Some(e)
      ensures p.conversionId !in old(conversions.rows) ==> error == Some(Disappeared)
      ensures p.conversionId in old(conversions.rows) ==>
                var c := old(conversions.rows)[p.conversionId];
                && (c.status == Created ==> error == Some(LifecycleRefused(InvalidTransition)))
                && (c.status == FundsReserved && c.eventId != Some(p.eventId) ==>
                      error == Some(LifecycleRefused(BoundToOtherEvent)))
                && (c.status in {Completed, Failed} ==>
                      error == if outcome == (if c.status == Completed then Success else Failure) then None
                               else Some(LifecycleRefused(ConflictingResult)))
    {
      hide ApplyOutcome;
      var row := conversions.FindById(p.conversionId);
      if row.None? {
        return Some(Disappeared);
      }
      var conversion := new Conversion.Reconstitute(row.value);
      if conversion.currentStatus == FundsReserved {
        var wrong := conversion.RequestExecution(p.eventId);
        if wrong.Some? {
          return Some(LifecycleRefused(wrong.value));
        }
      }
      error := ApplyResultTo(conversion, p.conversionId, outcome, now, reason);
    }

    method RollbackSettlement(before: Db)
      requires before == Contents().(wallets := before.wallets, conversions := before.conversions,
                                     markers := before.markers)
      requires AllChecked(before.conversions)
      modifies wallets, conversions, processed
      ensures Contents() == before && conversions.Valid()
    {
      wallets.rows, conversions.rows, processed.markers := before.wallets, before.conversions, before.markers;
    }

    /** The wallet calls of applyOutcome. */
    method MoveWallets(c: ConversionRow, outcome: Outcome) returns (error: Option<WalletError>)
      modifies wallets
      ensures match MoveFunds(old(wallets.rows), c, outcome)
              case Ok(after) => error.None? && wallets.rows == after
              case Err(e) => error == Some(e)
      ensures c.status !in {ExecutionRequested, RequiresReconciliation} || outcome == Unknown ==>
                error.None? && wallets.rows == old(wallets.rows)
      ensures c.status in {ExecutionRequested, RequiresReconciliation} && outcome != Unknown ==>
                var k := WalletKey(c.userId, c.source.asset);
                error == Some(InsufficientReserved) <==>
                k !in old(wallets.rows) || old(wallets.rows)[k].reserved < c.source.units
    {
      hide UpdateRow, CreateIfMissing, Stored;
      error := None;
      if !MovesFunds(c.status) {
        return;
      }
      if outcome == Success {
        error := wallets.CommitReservation(c.userId, c.source);
        if error.Some? {
          return;
        }
        wallets.CreateRowIfMissing(c.userId, c.target.asset);
        error := wallets.CreditFunds(c.userId, c.target);
      } else if outcome == Failure {
        error := wallets.ReleaseFunds(c.userId, c.source);
      }
    }

    /** applyOutcome. */
    method ApplyResultTo(conversion: Conversion, id: Id, outcome: Outcome, now: int, reason: Option<string>)
      returns (error: Option<SettleError>)
      requires conversions.Valid() && id in conversions.rows && Lifecycle(conversion.Row())
      modifies wallets, conversions, conversion
      ensures conversions.Valid()
      ensures match ApplyOutcome(old(Contents()), id, old(conversion.Row()), outcome, now, reason)
              case Ok(after) => error.None? && Contents() == after
              case Err(e) => error == Some(e)
      ensures old(conversion.currentStatus) in {Created, FundsReserved} ==>
                error == Some(LifecycleRefused(InvalidTransition))
      ensures old(conversion.currentStatus) in {Completed, Failed} ==>
                error == if outcome == (if old(conversion.currentStatus) == Completed then Success else Failure)
                         then None
                         else Some(LifecycleRefused(ConflictingResult))
    {
      hide MoveFunds, AllChecked, ConversionChecks, Lifecycle, ApplyResult, SaveConversion, QuoteUnused;
      error := None;
      var c := conversion.Row();
      if (outcome == Success && c.status == Completed) || (outcome == Failure && c.status == Failed) {
        return;
      }
      var refused := MoveWallets(c, outcome);
      if refused.Some? {
        return Some(WalletRefused(refused.value));
      }
      ghost var waiting := conversion.Row();
      var wrong := conversion.ApplyExecutionResult(outcome, now, reason);
      if wrong.Some? {
        return Some(LifecycleRefused(wrong.value));
      }
      SettledRowIsChecked(conversions.rows, id, waiting, outcome, now, reason);
      var saved := conversions.Save(id, conversion.Row());
    }
  }

  /** The table's checks never refuse the row of a settled conversion. */
  lemma SettledRowIsChecked(rows: ConversionTable, id: Id, c: ConversionRow, outcome: Outcome, now: int,
                            reason: Option<string>)
    requires AllChecked(rows) && id in rows && Lifecycle(c) && ApplyResult(c, outcome, now, reason).Ok?
    ensures ConversionChecks(SaveConversion(rows, id, ApplyResult(c, outcome, now, reason).value)[id])
  {
    ResultKeepsLifecycle(c, outcome, now, reason);
  }

  // ----- waiting for the winner of a key

  /** waitForIdempotentCompletion: `clock(i)` is the time at the i-th look at it, `found(i)` what the record
      is then. The first look that does not keep waiting decides: a finished record of the same request is
      replayed; another request's record, a vanished one or a passed deadline give nothing. Looks are
      `pollMs` apart, so they number at most maxWaitMs / pollMs + 2. */
  method WaitForIdempotentCompletion(clock: nat -> int, found: nat -> Lookup, start: int, maxWaitMs: nat, pollMs: nat,
                                     requestHash: Id)
    returns (replay: Option<Response>, looks: nat)
    requires pollMs >= 1 && clock(0) >= start
    requires forall i: nat :: clock(i + 1) >= clock(i) + pollMs
    ensures looks >= 1 && forall i :: 0 <= i < looks - 1 ==> clock(i) <= start + maxWaitMs && found(i).InProgress?
    ensures !(clock(looks - 1) <= start + maxWaitMs && found(looks - 1).InProgress?)
    ensures var last := found(looks - 1);
            replay == if clock(looks - 1) <= start + maxWaitMs && last.Finished? && last.requestHash == requestHash
                      then Some(last.answer) else None
    ensures (looks - 2) * pollMs <= maxWaitMs
  {
    var deadline := start + maxWaitMs;
    var i: nat := 0;
    while clock(i) <= deadline
      invariant forall j :: 0 <= j < i ==> clock(j) <= start + maxWaitMs && found(j).InProgress?
      invariant clock(i) >= start + i * pollMs
      invariant (i - 1) * pollMs <= maxWaitMs
      decreases deadline - clock(i)
    {
      var existing := found(i);
      if existing.Finished? {
        return if existing.requestHash == requestHash then Some(existing.answer) else None, i + 1;
      }
      if existing.Missing? {
        return None, i + 1;
      }
      assert clock(i + 1) >= clock(i) + pollMs;
      i := i + 1;
    }
    return None, i + 1;
  }
}
