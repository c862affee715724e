/** Every step of a handler, and in particular the settlement transaction. */
module WorkerProof {
  import opened Common
  import opened Moneys
  import opened Wallets
  import opened Conversions
  import opened Tables
  import opened Transactions
  import opened Execution
  import opened Ledger
  import opened Invariants
  import opened DatabaseProof

  /** What a settlement leaves behind when it moves the conversion on. */
  function AfterSettle(db: Db, p: Payload, o: Outcome, reason: Option<string>, now: int): Db
    requires p.conversionId in db.conversions
    requires MoveFunds(db.wallets, db.conversions[p.conversionId], o).Ok?
    requires ApplyResult(db.conversions[p.conversionId], o, now, reason).Ok?
  {
    var c := db.conversions[p.conversionId];
    db.(markers := db.markers[p.eventId := Marker(p.conversionId, o)],
        wallets := MoveFunds(db.wallets, c, o).value,
        conversions := db.conversions[p.conversionId := ApplyResult(c, o, now, reason).value])
  }

  /** The row a genuine payload names: its facts, gathered. */
  lemma GenuineRow(db: Db, p: Payload)
    requires TablesInv(db) && Genuine(db.conversions, p)
    ensures var c := db.conversions[p.conversionId];
            && Lifecycle(c) && (c.status == ExecutionRequested || Terminal(c.status)) && ResultOk(c, db.exchange)
            && c.source.units > 0 && c.source.asset != c.target.asset && Worth(c.target) <= Worth(c.source)
            && Owned(db.outbox, db.conversions, p.eventId)
            && db.outbox[p.eventId].payload == PayloadOf(p.eventId, p.conversionId, c)
            && db.outbox[p.eventId].payload.conversionId == p.conversionId
  {
    hide Worth, PayloadOf, PayloadMatches, RecordsOk, OrdersOk, MarkersOk, FitsColumn;
    var c := db.conversions[p.conversionId];
    assert FromQuote(c, db.quotes) && QuoteOk(db.quotes[c.quoteId]);
    BoundOnce(db.outbox, db.conversions, p.eventId, p.conversionId, p.conversionId);
  }

  /** The settlement of a worker that holds the exchange's result: already claimed; or the conversion was
      terminal with that same result and only the marker is added; or everything happens at once; or it
      is refused, only because the target column has no room. A conflict is impossible. */
  lemma SettleEffect(db: Db, funded: map<WalletKey, nat>, p: Payload, o: Outcome, reason: Option<string>, now: int)
    requires DbInv(db, funded) && WorkerOk(db, p, Executed(o, reason))
    ensures var c := db.conversions[p.conversionId];
            match Settle(db, p, o, reason, now)
            case AlreadyClaimed => p.eventId in db.markers
            case Settled(after) =>
              && p.eventId !in db.markers
              && if Terminal(c.status) then
                   after == db.(markers := db.markers[p.eventId := Marker(p.conversionId,
                                                                          o)]) && o == OutcomeOf(c.status)
                 else
                   && MoveFunds(db.wallets, c, o).Ok? && ApplyResult(c, o, now, reason).Ok?
                   && after == AfterSettle(db, p, o, reason, now)
            case RolledBack(e) =>
              && c.status == ExecutionRequested && o == Success && !RoomForTarget(db.wallets, c)
              && e == WalletRefused(ConstraintViolated)
  {
    hide Worth, PayloadOf, PayloadMatches, TablesInv, LedgerOk, FitsColumn, CommitAndCredit, UpdateRow;
    hide RoomForTarget, Lifecycle;
    GenuineRow(db, p);
    var c := db.conversions[p.conversionId];
    if c.status == ExecutionRequested {
      SettlementRefusedOnlyWithoutRoom(db.wallets, db.conversions, funded, p.conversionId, o);
    } else {
      assert db.conversions[p.conversionId := c] == db.conversions;
    }
  }

  lemma SettledRowIsRight(c: ConversionRow, o: Outcome, now: int, reason: Option<string>, exchange: ExchangeTable)
    requires c.status == ExecutionRequested && Lifecycle(c)
    requires c.eventId.Some? && c.eventId.value in exchange && exchange[c.eventId.value].outcome == o
    ensures var r := ApplyResult(c, o, now, reason);
            && r.Ok? && ConversionEvolves(c, r.value) && ResultOk(r.value, exchange) && Lifecycle(r.value)
            && OutcomeOf(r.value.status) == o && Terminal(r.value.status)
            && (o == Success ==> r.value.status == Completed) && (o == Failure ==> r.value.status == Failed)
            && (o == Unknown ==> Holds(r.value.status))
  {
  }

  lemma SettleKeepsInvariant(db: Db, funded: map<WalletKey, nat>, p: Payload, o: Outcome,
                             reason: Option<string>, now: int)
    requires DbInv(db, funded) && WorkerOk(db, p, Executed(o, reason))
    ensures match Settle(db, p, o, reason, now)
            case Settled(after) => DbInv(after, funded) && Evolves(db, after) && WorkerOk(after, p, Returned)
            case AlreadyClaimed => WorkerOk(db, p, Returned)
            case RolledBack(e) => WorkerOk(db, p, Failing(SettlementRefused(e)))
  {
    hide Settle, Worth, PayloadOf, PayloadMatches, LedgerOk, RoomForTarget, Lifecycle, MoveFunds, ApplyResult;
    hide RowsInv, RecordsOk, OrdersOk, ResultsOk;
    hide QuotesEvolve, ConversionsEvolve, OutboxEvolves, ExchangeEvolves;
    GenuineRow(db, p);
    SettleEffect(db, funded, p, o, reason, now);
    var c := db.conversions[p.conversionId];
    match Settle(db, p, o, reason, now)
    case AlreadyClaimed =>
      assert MarkerOk(p.eventId, db.markers[p.eventId], db.outbox, db.conversions);
    case RolledBack(e) =>
    case Settled(after) =>
      if Terminal(c.status) {
        NewMarkerOk(db, p.eventId, Marker(p.conversionId, o));
        MarkersKeepInvariant(db, funded, after.markers);
      } else {
        var r := ApplyResult(c, o, now, reason).value;
        SettledRowIsRight(c, o, now, reason, db.exchange);
        SettledLedger(db.wallets, db.conversions, funded, p.conversionId, o, r);
        MoveKeepsInvariant(db, funded, p.conversionId, r, after.wallets);
        var moved := db.(conversions := after.conversions, wallets := after.wallets);
        NewMarkerOk(moved, p.eventId, Marker(p.conversionId, o));
        MarkersKeepInvariant(moved, funded, after.markers);
        EvolvesTransitive(db, moved, after);
      }
  }

  lemma SettledLedger(ws: WalletTable, rows: ConversionTable, funded: map<WalletKey, nat>, id: Id, o: Outcome,
                      r: ConversionRow)
    requires LedgerOk(ws, rows, funded)
    requires id in rows && rows[id].status == ExecutionRequested && SameIdentity(rows[id], r)
    requires rows[id].source.units > 0 && rows[id].source.asset != rows[id].target.asset
    requires MoveFunds(ws, rows[id], o).Ok?
    requires o == Success ==> r.status == Completed
    requires o == Failure ==> r.status == Failed
    requires o == Unknown ==> Holds(r.status)
    ensures LedgerOk(MoveFunds(ws, rows[id], o).value, rows[id := r], funded)
  {
    hide LedgerOk, CommitAndCredit, UpdateRow;
    if o == Unknown {
      StatusKeepsLedger(ws, rows, funded, id, r);
    } else {
      SettleKeepsLedger(ws, rows, funded, id, o, r);
    }
  }

  // ----- the other steps of a handler

  lemma InspectedOk(db: Db, p: Payload)
    ensures WorkerOk(db, p, Inspect(db.conversions, p))
  {
    hide PayloadMatches;
  }

  /** The conditional status advance. */
  lemma AdvanceKeepsInvariant(db: Db, funded: map<WalletKey, nat>, p: Payload)
    requires DbInv(db, funded)
    requires RequestIfReserved(db.conversions, p.conversionId, p.eventId).Some?
    ensures var after := db.(conversions := RequestIfReserved(db.conversions, p.conversionId, p.eventId).value);
            DbInv(after, funded) && Evolves(db, after)
  {
    hide LedgerOk, RecordsOk, OrdersOk, ResultsOk, MarkersOk, FromQuotes, HaveEvents, OnePerQuote, QuotesOk;
    hide AcceptedAreConverted, OutboxOwned, ConversionsEvolve;
    var c := db.conversions[p.conversionId];
    var r := c.(status := ExecutionRequested);
    StatusKeepsLedger(db.wallets, db.conversions, funded, p.conversionId, r);
    MoveKeepsInvariant(db, funded, p.conversionId, r, db.wallets);
  }

  lemma PlacingKeepsInvariant(db: Db, funded: map<WalletKey, nat>, p: Payload, mode: Outcome)
    requires DbInv(db, funded) && WorkerOk(db, p, Requested)
    ensures var placed := PlaceOrder(db.exchange, p, mode);
            && placed.Ok?
            && var after := db.(exchange := placed.value);
            DbInv(after, funded) && Evolves(db, after) && WorkerOk(after, p, Placed)
  {
    hide LedgerOk, TablesInv, PayloadOf, PayloadMatches, PlaceOrder, SameCommand, Lifecycle, Worth, ResultOk;
    GenuineRow(db, p);
    var c := db.conversions[p.conversionId];
    CheckedPayloadIsPlaced(db.exchange, p, c, mode);
    EvolvesReflexive(db);
    if p.eventId in db.exchange {
      assert db.(exchange := db.exchange) == db;
    } else {
      var o := PlaceOrder(db.exchange, p, mode).value[p.eventId];
      OwnPayloadMatches(p.eventId, p.conversionId, c);
      MatchingPayloadsAreOneCommand(p, db.outbox[p.eventId].payload, c, o);
      NewOrderKeepsInvariant(db, funded, p.eventId, o);
    }
  }

  /** Reading the order back never finds a different command. */
  lemma ReadBackSucceeds(db: Db, p: Payload)
    requires TablesInv(db) && WorkerOk(db, p, Placed)
    ensures ReadResult(db.exchange, p).Executed? && WorkerOk(db, p, ReadResult(db.exchange, p))
  {
    hide RowsInv, PayloadOf, PayloadMatches, SameCommand, Lifecycle, Worth, ResultOk;
    GenuineRow(db, p);
    var c := db.conversions[p.conversionId];
    assert OrderOk(p.eventId, db.exchange[p.eventId], db.outbox, db.conversions);
    OwnPayloadMatches(p.eventId, p.conversionId, c);
    MatchingPayloadsAreOneCommand(p, db.outbox[p.eventId].payload, c, db.exchange[p.eventId]);
  }

  lemma RepairKeepsInvariant(db: Db, funded: map<WalletKey, nat>, p: Payload, o: Outcome)
    requires DbInv(db, funded) && WorkerOk(db, p, Repairing(o))
    ensures var after := db.(markers := InsertIfAbsent(db.markers, p.eventId, Marker(p.conversionId, o)));
            DbInv(after, funded) && Evolves(db, after) && WorkerOk(after, p, Returned)
  {
    hide LedgerOk, PayloadOf, PayloadMatches, Lifecycle, Worth, ResultOk, RowsInv, RecordsOk, OrdersOk, ResultsOk;
    hide QuotesEvolve, ConversionsEvolve, OutboxEvolves, ExchangeEvolves;
    GenuineRow(db, p);
    NewMarkerOk(db, p.eventId, Marker(p.conversionId, o));
    MarkersKeepInvariant(db, funded, InsertIfAbsent(db.markers, p.eventId, Marker(p.conversionId, o)));
  }

  lemma MarkedIsTerminal(db: Db, p: Payload)
    requires TablesInv(db) && p.eventId in db.markers
    ensures WorkerOk(db, p, Returned)
  {
    hide RowsInv, RecordsOk, OrdersOk, ResultsOk;
    assert MarkerOk(p.eventId, db.markers[p.eventId], db.outbox, db.conversions);
  }

  /** Any step of any handler, on any message, keeps the database invariant, moves the database forwards
      and leaves the handler knowing only true things. */
  lemma HandlerKeepsInvariant(db: Db, funded: map<WalletKey, nat>, p: Payload, pc: Pc, mode: Outcome, now: int)
    requires DbInv(db, funded) && WorkerOk(db, p, pc)
    ensures var (after, pc') := HandlerStep(db, p, pc, mode, now);
            DbInv(after, funded) && Evolves(db, after) && WorkerOk(after, p, pc')
  {
    hide DbInv, Evolves, WorkerOk, Settle, Inspect, ReadResult, PlaceOrder, RequestIfReserved, InsertIfAbsent;
    Unpack(db, funded);
    EvolvesReflexive(db);
    match pc
    case Received =>
      PlainWorkers(db, p);
      if p.eventId in db.markers { MarkedIsTerminal(db, p); }
    case Unprocessed =>
      PlainWorkers(db, p);
      if RequestIfReserved(db.conversions, p.conversionId, p.eventId).Some? {
        AdvanceKeepsInvariant(db, funded, p);
        InspectedOk(db.(conversions := RequestIfReserved(db.conversions, p.conversionId, p.eventId).value), p);
      }
    case Rereading => InspectedOk(db, p);
    case Repairing(o) => RepairKeepsInvariant(db, funded, p, o);
    case Requested => PlacingKeepsInvariant(db, funded, p, mode);
    case Placed => ReadBackSucceeds(db, p);
    case Executed(o, reason) => SettleKeepsInvariant(db, funded, p, o, reason, now);
    case _ =>
  }

  lemma Unpack(db: Db, funded: map<WalletKey, nat>)
    requires DbInv(db, funded)
    ensures TablesInv(db) && LedgerOk(db.wallets, db.conversions, funded)
  {
  }

  lemma PlainWorkers(db: Db, p: Payload)
    ensures WorkerOk(db, p, Received) && WorkerOk(db, p, Unprocessed) && WorkerOk(db, p, Rereading)
    ensures WorkerOk(db, p, Failing(InvalidMessage)) && WorkerOk(db, p, Failing(StorageFailure))
    ensures WorkerOk(db, p, Republished) && WorkerOk(db, p, Nacking)
  {
  }
}
