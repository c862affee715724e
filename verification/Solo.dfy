/** One message handled to its end with nothing in between: what it achieves, and that repeating it is harmless. */
module Solo {
  import opened Common
  import opened Moneys
  import opened Wallets
  import opened Conversions
  import opened Tables
  import opened Transactions
  import opened Execution
  import opened Ledger
  import opened Invariants
  import opened WorkerProof
  import opened Protocol

  /** The payload is the message of a stored conversion, however it spells the amounts. */
  predicate Own(rows: ConversionTable, p: Payload) {
    BoundTo(rows, p.eventId, p.conversionId) && PayloadMatches(p, rows[p.conversionId])
  }

  /** The outcome the exchange has recorded for an event, or will record. */
  function ExchangeOutcome(exchange: ExchangeTable, event: Id, mode: Outcome): Outcome {
    if event in exchange then exchange[event].outcome else mode
  }

  /** The only way the settlement of `c` can be refused. */
  predicate NoRoom(ws: WalletTable, c: ConversionRow, o: Outcome) {
    !Terminal(c.status) && o == Success && !RoomForTarget(ws, c)
  }

  /** The end of a handler run on an own message that found the conversion as `c`. */
  predicate Ended(before: Db, c: ConversionRow, o: Outcome, p: Payload, after: Db, pc: Pc) {
    p.conversionId in after.conversions &&
    if NoRoom(before.wallets, c, o) then
      pc == Failing(SettlementRefused(WalletRefused(ConstraintViolated))) && after.wallets == before.wallets
    else
      && pc == Returned && Terminal(after.conversions[p.conversionId].status)
      && OutcomeOf(after.conversions[p.conversionId].status) == o
      && p.eventId in after.markers && after.markers[p.eventId] == Marker(p.conversionId, o)
  }

  lemma MarkedEnds(db: Db, p: Payload, mode: Outcome)
    requires TablesInv(db) && Own(db.conversions, p) && p.eventId in db.markers
    ensures Ended(db, db.conversions[p.conversionId], ExchangeOutcome(db.exchange, p.eventId, mode), p, db, Returned)
  {
    hide RecordsOk, OrdersOk, PayloadMatches, LifecyclesOk, FromQuotes, OnePerQuote, QuotesOk;
    hide AcceptedAreConverted, OutboxOwned, PayloadOf;
    BoundOnce(db.outbox, db.conversions, p.eventId, p.conversionId, p.conversionId);
    assert MarkerOk(p.eventId, db.markers[p.eventId], db.outbox, db.conversions);
    assert ResultOk(db.conversions[p.conversionId], db.exchange);
  }

  lemma SettleRuns(db: Db, p: Payload, o: Outcome, reason: Option<string>, mode: Outcome, now: int)
    ensures RunHandler(db, p, Executed(o, reason), mode, now)
         == match Settle(db, p, o, reason, now)
            case AlreadyClaimed => (db, Returned)
            case Settled(after) => (after, Returned)
            case RolledBack(e) => (db, Failing(SettlementRefused(e)))
  {
    hide Settle, PayloadMatches, PlaceOrder, ReadResult, Inspect;
  }

  lemma ExecutedEnds(db: Db, funded: map<WalletKey, nat>, p: Payload, o: Outcome, reason: Option<string>,
                     mode: Outcome, now: int)
    requires DbInv(db, funded) && WorkerOk(db, p, Executed(o, reason)) && p.eventId !in db.markers
    ensures var (after, pc) := RunHandler(db, p, Executed(o, reason), mode, now);
            Ended(db, db.conversions[p.conversionId], o, p, after, pc)
  {
    hide Settle, RoomForTarget, TablesInv, LedgerOk, MoveFunds, ApplyResult, Lifecycle, Worth, PayloadOf;
    hide PayloadMatches, ResultOk;
    hide RunHandler, Owned;
    SettleRuns(db, p, o, reason, mode, now);
    GenuineRow(db, p);
    SettleEffect(db, funded, p, o, reason, now);
    var c := db.conversions[p.conversionId];
    if c.status == ExecutionRequested {
      SettlementRefusedOnlyWithoutRoom(db.wallets, db.conversions, funded, p.conversionId, o);
      AppliedStatus(c, o, now, reason);
    }
  }

  lemma AppliedStatus(c: ConversionRow, o: Outcome, now: int, reason: Option<string>)
    requires c.status == ExecutionRequested
    ensures ApplyResult(c, o, now, reason).Ok?
    ensures var s := ApplyResult(c, o, now, reason).value.status; Terminal(s) && OutcomeOf(s) == o
  {
  }

  lemma PlacedOutcome(db: Db, p: Payload, mode: Outcome)
    requires WorkerOk(db, p, Requested)
    ensures var placed := PlaceOrder(db.exchange, p, mode);
            placed.Ok? && p.eventId in placed.value
            && placed.value[p.eventId].outcome == ExchangeOutcome(db.exchange, p.eventId, mode)
  {
    hide PayloadMatches, PlaceOrder, SameCommand;
    CheckedPayloadIsPlaced(db.exchange, p, db.conversions[p.conversionId], mode);
  }

  lemma PlacingRuns(db: Db, p: Payload, mode: Outcome, now: int)
    requires PlaceOrder(db.exchange, p, mode).Ok?
    ensures var placed := db.(exchange := PlaceOrder(db.exchange, p, mode).value);
            RunHandler(db, p, Requested, mode, now) == RunHandler(placed, p, ReadResult(placed.exchange, p), mode, now)
  {
    hide Settle, PayloadMatches, PlaceOrder, SameCommand, Inspect;
    var placed := db.(exchange := PlaceOrder(db.exchange, p, mode).value);
    assert RunHandler(db, p, Requested, mode, now) == RunHandler(placed, p, Placed, mode, now);
  }

  lemma ReadIsRecorded(db: Db, p: Payload, read: Pc)
    requires WorkerOk(db, p, read) && read.Executed?
    ensures p.eventId in db.exchange && read.outcome == db.exchange[p.eventId].outcome
    ensures read == Executed(read.outcome, read.reason)
  {
    hide Genuine;
  }

  lemma RequestedEnds(db: Db, funded: map<WalletKey, nat>, p: Payload, mode: Outcome, now: int)
    requires DbInv(db, funded) && WorkerOk(db, p, Requested) && p.eventId !in db.markers
    ensures var (after, pc) := RunHandler(db, p, Requested, mode, now);
            Ended(db, db.conversions[p.conversionId], ExchangeOutcome(db.exchange, p.eventId, mode), p, after, pc)
  {
    hide DbInv, RunHandler, PlaceOrder, SameCommand, PayloadMatches, Evolves, NoRoom, WorkerOk, TablesInv;
    hide Terminal, ReadResult;
    Unpack(db, funded);
    PlacingKeepsInvariant(db, funded, p, mode);
    PlacingRuns(db, p, mode, now);
    PlacedOutcome(db, p, mode);
    var placed := db.(exchange := PlaceOrder(db.exchange, p, mode).value);
    Unpack(placed, funded);
    ReadBackSucceeds(placed, p);
    var read := ReadResult(placed.exchange, p);
    ReadIsRecorded(placed, p, read);
    ExecutedEnds(placed, funded, p, read.outcome, read.reason, mode, now);
  }

  /** Handling an own message by itself always comes to the end it should: unless the target balance has
      no room, the handler resolves, the conversion is terminal with the outcome the exchange recorded
      first, and the marker says so. */
  lemma OwnMessageSettles(db: Db, funded: map<WalletKey, nat>, p: Payload, mode: Outcome, now: int)
    requires DbInv(db, funded) && Own(db.conversions, p)
    ensures var (after, pc) := RunHandler(db, p, Received, mode, now);
            Ended(db, db.conversions[p.conversionId], ExchangeOutcome(db.exchange, p.eventId, mode), p, after, pc)
  {
    hide DbInv, RunHandler, Ended, PayloadMatches, Own;
    Unpack(db, funded);
    OwnType(db.conversions, p);
    FirstStep(db, p, mode, now);
    if p.eventId in db.markers {
      MarkedEnds(db, p, mode);
    } else {
      UnprocessedEnds(db, funded, p, mode, now);
    }
  }

  lemma OwnType(rows: ConversionTable, p: Payload)
    requires Own(rows, p)
    ensures p.eventType == EVENT_TYPE && p.conversionId in rows && rows[p.conversionId].eventId == Some(p.eventId)
  {
    hide Of;
  }

  lemma FirstStep(db: Db, p: Payload, mode: Outcome, now: int)
    requires p.eventType == EVENT_TYPE
    ensures RunHandler(db, p, Received, mode, now)
         == if p.eventId in db.markers then (db, Returned) else RunHandler(db, p, Unprocessed, mode, now)
  {
    hide PayloadMatches, PlaceOrder, Settle, SameCommand, RequestIfReserved;
  }

  lemma UnprocessedEnds(db: Db, funded: map<WalletKey, nat>, p: Payload, mode: Outcome, now: int)
    requires DbInv(db, funded) && Own(db.conversions, p) && p.eventId !in db.markers
    ensures var (after, pc) := RunHandler(db, p, Unprocessed, mode, now);
            Ended(db, db.conversions[p.conversionId], ExchangeOutcome(db.exchange, p.eventId, mode), p, after, pc)
  {
    hide DbInv, TablesInv, Ended, PayloadMatches, Settle, PlaceOrder, Evolves, Lifecycle, RunHandler;
    var c := db.conversions[p.conversionId];
    OwnStatus(db, funded, p);
    if c.status == FundsReserved {
      var r := c.(status := ExecutionRequested);
      var d := db.(conversions := db.conversions[p.conversionId := r]);
      SameTexts(c, r);
      AdvanceKeepsInvariant(db, funded, p);
      AdvanceRuns(db, p, mode, now);
      RequestedEnds(d, funded, p, mode, now);
      SameEnd(db, c, r, ExchangeOutcome(db.exchange, p.eventId, mode), p, RunHandler(d, p, Requested, mode, now).0,
              RunHandler(d, p, Requested, mode, now).1);
    } else {
      RereadRuns(db, p, mode, now);
      if c.status == ExecutionRequested {
        RequestedEnds(db, funded, p, mode, now);
      } else {
        RepairEnds(db, funded, p, mode, now);
      }
    }
  }

  lemma OwnStatus(db: Db, funded: map<WalletKey, nat>, p: Payload)
    requires DbInv(db, funded) && Own(db.conversions, p)
    ensures db.conversions[p.conversionId].status != Created
    ensures ResultOk(db.conversions[p.conversionId], db.exchange)
  {
    hide RecordsOk, OrdersOk, MarkersOk, LedgerOk, PayloadMatches, FromQuotes, OnePerQuote, QuotesOk;
    hide AcceptedAreConverted, OutboxOwned;
    hide HaveEvents;
  }

  lemma SameEnd(db: Db, c: ConversionRow, r: ConversionRow, o: Outcome, p: Payload, after: Db, pc: Pc)
    requires r == c.(status := ExecutionRequested) && c.status == FundsReserved
    ensures Ended(db, c, o, p, after, pc) <==> Ended(db.(conversions := db.conversions[p.conversionId := r]), r, o,
                                                     p, after, pc)
  {
  }

  lemma AdvanceRuns(db: Db, p: Payload, mode: Outcome, now: int)
    requires Own(db.conversions, p) && db.conversions[p.conversionId].status == FundsReserved
    ensures var r := db.conversions[p.conversionId].(status := ExecutionRequested);
            var d := db.(conversions := db.conversions[p.conversionId := r]);
            RunHandler(db, p, Unprocessed, mode, now) == RunHandler(d, p, Requested, mode, now)
  {
    hide PayloadMatches, Settle, PlaceOrder, ReadResult;
    SameTexts(db.conversions[p.conversionId], db.conversions[p.conversionId].(status := ExecutionRequested));
  }

  lemma RereadRuns(db: Db, p: Payload, mode: Outcome, now: int)
    requires Own(db.conversions, p) && db.conversions[p.conversionId].status !in {Created, FundsReserved}
    ensures var c := db.conversions[p.conversionId];
            RunHandler(db, p, Unprocessed, mode, now)
            == RunHandler(db, p, if c.status == ExecutionRequested then Requested else Repairing(OutcomeOf(c.status)),
                          mode, now)
  {
    hide PayloadMatches, Settle, PlaceOrder, ReadResult, InsertIfAbsent;
    assert RunHandler(db, p, Unprocessed, mode, now) == RunHandler(db, p, Rereading, mode, now);
  }

  lemma RepairEnds(db: Db, funded: map<WalletKey, nat>, p: Payload, mode: Outcome, now: int)
    requires Own(db.conversions, p) && p.eventId !in db.markers
    requires Terminal(db.conversions[p.conversionId].status) && ResultOk(db.conversions[p.conversionId], db.exchange)
    ensures var c := db.conversions[p.conversionId];
            var (after, pc) := RunHandler(db, p, Repairing(OutcomeOf(c.status)), mode, now);
            Ended(db, c, ExchangeOutcome(db.exchange, p.eventId, mode), p, after, pc)
  {
    hide PayloadMatches, Settle, PlaceOrder, ReadResult, RoomForTarget;
  }

  // ----- any message, in any state

  /** The database after the status advance that a message may bring about. */
  function Advanced(db: Db, p: Payload): Db {
    if && p.conversionId in db.conversions && db.conversions[p.conversionId].status == FundsReserved
       && db.conversions[p.conversionId].eventId == Some(p.eventId)
    then db.(conversions := db.conversions[p.conversionId :=
                                             db.conversions[p.conversionId].(status := ExecutionRequested)])
    else db
  }

  lemma ComesToInspection(db: Db, p: Payload, mode: Outcome, now: int)
    ensures var d := Advanced(db, p);
            RunHandler(db, p, Unprocessed, mode, now) == RunHandler(d, p, Inspect(d.conversions, p), mode, now)
  {
    hide Inspect, PayloadMatches, Settle, PlaceOrder, ReadResult, RunHandler;
    RunUnfolds(db, p, Unprocessed, mode, now);
    RunUnfolds(db, p, Rereading, mode, now);
  }

  lemma MatchesInFull(p: Payload, c: ConversionRow)
    requires p.eventType == "ConversionExecutionRequested"
    ensures PayloadMatches(p, c)
       <==> (&& p.userId == c.userId && p.occurredAt.Some?
             && p.sourceAsset == (if c.source.asset == USDT then "USDT" else "BTC")
             && p.targetAsset == (if c.target.asset == USDT then "USDT" else "BTC")
             && Of(p.sourceAmount, c.source.asset) == Ok(c.source)
             && Of(p.targetAmount, c.target.asset) == Ok(c.target))
  {
    hide Of;
  }

  lemma FirstCheck(db: Db, p: Payload, mode: Outcome, now: int)
    ensures RunHandler(db, p, Received, mode, now)
         == if p.eventType != "ConversionExecutionRequested" then (db, Failing(InvalidMessage))
            else if p.eventId in db.markers then (db, Returned)
            else RunHandler(db, p, Unprocessed, mode, now)
  {
    hide RunHandler, PayloadMatches, PlaceOrder, Settle, SameCommand, RequestIfReserved;
    RunUnfolds(db, p, Received, mode, now);
    RunUnfolds(db, p, Failing(InvalidMessage), mode, now);
    RunUnfolds(db, p, Returned, mode, now);
  }

  lemma RepairStep(db: Db, p: Payload, o: Outcome, mode: Outcome, now: int)
    requires p.eventId !in db.markers
    ensures RunHandler(db, p, Repairing(o), mode, now)
         == (db.(markers := db.markers[p.eventId := Marker(p.conversionId, o)]), Returned)
  {
    hide PayloadMatches, Settle, PlaceOrder, ReadResult;
  }

  lemma InspectedInFull(db: Db, p: Payload, mode: Outcome, now: int)
    requires p.eventId !in db.markers && p.conversionId in db.conversions
    ensures var (after, pc) := RunHandler(db, p, Inspect(db.conversions, p), mode, now);
            var c := db.conversions[p.conversionId];
            if !PayloadMatches(p, c) then pc == Failing(PayloadMismatch) && after == db
            else if c.eventId != Some(p.eventId) then pc == Failing(BoundToAnotherEvent) && after == db
            else if c.status in {Completed, Failed, RequiresReconciliation} then
              && pc == Returned
              && var seen := match c.status
                             case Completed => Success
                             case Failed => Failure
                             case _ => Unknown;
              after == db.(markers := db.markers[p.eventId := Marker(p.conversionId, seen)])
            else if c.status in {Created, FundsReserved} then pc == Failing(UnexpectedStatus) && after == db
            else (after, pc) == RunHandler(db, p, Requested, mode, now)
  {
    hide RunHandler, PayloadMatches, Settle, PlaceOrder, ReadResult;
    var pc := Inspect(db.conversions, p);
    RunUnfolds(db, p, pc, mode, now);
    if pc.Repairing? {
      RepairStep(db, p, pc.seen, mode, now);
    }
  }

  lemma AdvancedInFull(db: Db, p: Payload, mode: Outcome, now: int)
    requires p.eventId !in db.markers && p.conversionId in db.conversions
    requires db.conversions[p.conversionId].status == FundsReserved
    requires db.conversions[p.conversionId].eventId == Some(p.eventId)
    ensures var d := Advanced(db, p);
            RunHandler(d, p, Inspect(d.conversions, p), mode, now)
            == if PayloadMatches(p, db.conversions[p.conversionId]) then RunHandler(d, p, Requested, mode, now)
               else (d, Failing(PayloadMismatch))
  {
    hide RunHandler, PayloadMatches, HandlerStep;
    var c, d := db.conversions[p.conversionId], Advanced(db, p);
    SameTexts(c, d.conversions[p.conversionId]);
    RunUnfolds(d, p, Failing(PayloadMismatch), mode, now);
  }

  lemma UnprocessedInFull(db: Db, p: Payload, mode: Outcome, now: int)
    requires p.eventType == "ConversionExecutionRequested" && p.eventId !in db.markers
    ensures var (after, pc) := RunHandler(db, p, Unprocessed, mode, now);
            if p.conversionId !in db.conversions then pc == Failing(ConversionNotFound) && after == db
            else
              var c := db.conversions[p.conversionId];
              var bound := c.eventId == Some(p.eventId);
              var advanced := if c.status == FundsReserved && bound
                              then db.(conversions := db.conversions[p.conversionId :=
                                                                       c.(status := ExecutionRequested)])
                              else db;
              if !PayloadMatches(p, c) then pc == Failing(PayloadMismatch) && after == advanced
              else if !bound then pc == Failing(BoundToAnotherEvent) && after == db
              else if c.status in {Completed, Failed, RequiresReconciliation} then
                && pc == Returned
                && var seen := match c.status
                               case Completed => Success
                               case Failed => Failure
                               case _ => Unknown;
                after == db.(markers := db.markers[p.eventId := Marker(p.conversionId, seen)])
              else if c.status == Created then pc == Failing(UnexpectedStatus) && after == db
              else (after, pc) == RunHandler(advanced, p, Requested, mode, now)
  {
    hide RunHandler, PayloadMatches, HandlerStep, Inspect;
    ComesToInspection(db, p, mode, now);
    if p.conversionId !in db.conversions {
      NotFound(db, p, mode, now);
    } else if db.conversions[p.conversionId].status == FundsReserved
              && db.conversions[p.conversionId].eventId == Some(p.eventId) {
      AdvancedInFull(db, p, mode, now);
    } else {
      InspectedInFull(db, p, mode, now);
    }
  }

  lemma NotFound(db: Db, p: Payload, mode: Outcome, now: int)
    requires p.conversionId !in db.conversions
    ensures RunHandler(db, p, Inspect(db.conversions, p), mode, now) == (db, Failing(ConversionNotFound))
  {
    hide RunHandler, HandlerStep;
    RunUnfolds(db, p, Failing(ConversionNotFound), mode, now);
  }

  /** What any message is answered with, genuine or not, in any state of the database: which check refuses it,
      which advance it brings about, and how a message of a settled conversion ends. Only a genuine message of a
      requested conversion goes on to the exchange. */
  lemma MessagesAreAnswered(db: Db, p: Payload, mode: Outcome, now: int)
    ensures var (after, pc) := RunHandler(db, p, Received, mode, now);
            if p.eventType != "ConversionExecutionRequested" then pc == Failing(InvalidMessage) && after == db
            else if p.eventId in db.markers then pc == Returned && after == db
            else if p.conversionId !in db.conversions then pc == Failing(ConversionNotFound) && after == db
            else
              var c := db.conversions[p.conversionId];
              var bound := c.eventId == Some(p.eventId);
              var advanced := if c.status == FundsReserved && bound
                              then db.(conversions := db.conversions[p.conversionId :=
                                                                       c.(status := ExecutionRequested)])
                              else db;
              if !(&& p.userId == c.userId && p.occurredAt.Some?
                   && p.sourceAsset == (if c.source.asset == USDT then "USDT" else "BTC")
                   && p.targetAsset == (if c.target.asset == USDT then "USDT" else "BTC")
                   && Of(p.sourceAmount, c.source.asset) == Ok(c.source)
                   && Of(p.targetAmount, c.target.asset) == Ok(c.target))
              then pc == Failing(PayloadMismatch) && after == advanced
              else if !bound then pc == Failing(BoundToAnotherEvent) && after == db
              else if c.status in {Completed, Failed, RequiresReconciliation} then
                && pc == Returned
                && var seen := match c.status
                               case Completed => Success
                               case Failed => Failure
                               case _ => Unknown;
                after == db.(markers := db.markers[p.eventId := Marker(p.conversionId, seen)])
              else if c.status == Created then pc == Failing(UnexpectedStatus) && after == db
              else (after, pc) == RunHandler(advanced, p, Requested, mode, now)
  {
    hide RunHandler, PayloadMatches, HandlerStep, Inspect, Of, Advanced;
    FirstCheck(db, p, mode, now);
    if p.eventType == "ConversionExecutionRequested" && p.eventId !in db.markers {
      UnprocessedInFull(db, p, mode, now);
      if p.conversionId in db.conversions {
        MatchesInFull(p, db.conversions[p.conversionId]);
      }
    }
  }

  /** Handling the same message again changes nothing, whatever the exchange's mode by then. And if its
      marker was lost in between, handling it again restores exactly that marker and nothing else. */
  lemma RepeatingIsHarmless(db: Db, funded: map<WalletKey, nat>, p: Payload, mode: Outcome, now: int,
                            mode': Outcome, now': int)
    requires DbInv(db, funded) && Own(db.conversions, p)
    requires RunHandler(db, p, Received, mode, now).1 == Returned
    ensures var after := RunHandler(db, p, Received, mode, now).0;
            && RunHandler(after, p, Received, mode', now') == (after, Returned)
            && RunHandler(after.(markers := Without(after.markers, p.eventId)), p, Received, mode',
                          now') == (after, Returned)
  {
    hide DbInv, RunHandler, PayloadMatches, Own, RoomForTarget, Evolves, ConversionEvolves;
    OwnType(db.conversions, p);
    OwnMessageSettles(db, funded, p, mode, now);
    var after := RunHandler(db, p, Received, mode, now).0;
    RunKeepsInvariant(db, funded, p, Received, mode, now);
    OwnStays(db, after, p);
    OwnType(after.conversions, p);
    FirstStep(after, p, mode', now');
    var lost := after.(markers := Without(after.markers, p.eventId));
    FirstStep(lost, p, mode', now');
    RereadRuns(lost, p, mode', now');
    RepairStep(lost, p, OutcomeOf(after.conversions[p.conversionId].status), mode', now');
    assert lost.markers[p.eventId := after.markers[p.eventId]] == after.markers;
  }

  lemma OwnStays(a: Db, b: Db, p: Payload)
    requires Evolves(a, b) && Own(a.conversions, p)
    ensures Own(b.conversions, p)
  {
    hide PayloadMatches, QuotesEvolve, OutboxEvolves, ExchangeEvolves;
    SameTexts(a.conversions[p.conversionId], b.conversions[p.conversionId]);
  }

  lemma {:induction false} RunKeepsInvariant(db: Db, funded: map<WalletKey, nat>, p: Payload, pc: Pc,
                                             mode: Outcome, now: int)
    requires DbInv(db, funded) && WorkerOk(db, p, pc)
    ensures var (after, pc') := RunHandler(db, p, pc, mode, now);
            DbInv(after, funded) && Evolves(db, after) && WorkerOk(after, p, pc')
    decreases Remaining(pc)
  {
    hide DbInv, Evolves, WorkerOk, HandlerStep;
    EvolvesReflexive(db);
    if !InHandler(pc) {
    } else {
      HandlerKeepsInvariant(db, funded, p, pc, mode, now);
      StepsRunOut(db, p, pc, mode, now);
      var (d, q) := HandlerStep(db, p, pc, mode, now);
      RunKeepsInvariant(d, funded, p, q, mode, now);
      EvolvesTransitive(db, d, RunHandler(d, p, q, mode, now).0);
    }
  }
}
