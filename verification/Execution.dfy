/**
  One delivery in the hands of a worker
  (src/modules/conversion/application/process-conversion-execution.use-case.ts, `process`, entered from
  src/modules/conversion/infrastructure/messaging/execution-consumer.service.ts).
  Each step is one interaction with the database; between two steps anything else may happen.
*/
module Execution {
  import opened Common
  import opened Conversions
  import opened Tables
  import opened Transactions

  datatype WorkerError =
    | InvalidMessage
    | ConversionNotFound
    | PayloadMismatch
    | BoundToAnotherEvent
    | UnexpectedStatus
    | ExchangeRefused
    | SettlementRefused(cause: SettleError)
    | StorageFailure

  datatype Pc =
    | Received                                          // handler not started
    | Unprocessed                                       // no processed marker found
    | Rereading                                         // the conditional UPDATE matched no row
    | Requested                                         // row checked, status EXECUTION_REQUESTED
    | Repairing(seen: Outcome)                          // row already terminal: only the marker is due
    | Placed                                            // order inserted at the exchange, or already there
    | Executed(outcome: Outcome, reason: Option<string>) // result read back
    | Returned                                          // handler resolved: ack is due
    | Failing(error: WorkerError)                       // handler rejected: republish or dead-letter is due
    | Republished                                       // copy confirmed: ack is due
    | Nacking                                           // copy not confirmed: nack is due

  /** A step of the handler itself is due. */
  predicate InHandler(pc: Pc) {
    pc.Received? || pc.Unprocessed? || pc.Rereading? || pc.Requested? || pc.Repairing? || pc.Placed? || pc.Executed?
  }

  /** The checks on the row that the status advance returned. */
  function Inspect(rows: ConversionTable, p: Payload): Pc {
    if p.conversionId !in rows then Failing(ConversionNotFound)
    else
      var c := rows[p.conversionId];
      if !PayloadMatches(p, c) then Failing(PayloadMismatch)
      else if c.eventId != Some(p.eventId) then Failing(BoundToAnotherEvent)
      else if Terminal(c.status) then Repairing(OutcomeOf(c.status))
      else if c.status != ExecutionRequested then Failing(UnexpectedStatus)
      else Requested
  }

  /** Reading the order back and comparing the command. */
  function ReadResult(rows: ExchangeTable, p: Payload): Pc {
    if p.eventId !in rows || !SameCommand(p, rows[p.eventId]) then Failing(ExchangeRefused)
    else Executed(rows[p.eventId].outcome, rows[p.eventId].reason)
  }

  /** One step: the database after it, and where the handler stands then. `mode` is what the exchange
      would answer to a new order at this moment. */
  function HandlerStep(db: Db, p: Payload, pc: Pc, mode: Outcome, now: int): (Db, Pc) {
    match pc
    case Received =>
      (db, if p.eventType != EVENT_TYPE then Failing(InvalidMessage)
           else if p.eventId in db.markers then Returned
           else Unprocessed)
    case Unprocessed =>
      (match RequestIfReserved(db.conversions, p.conversionId, p.eventId)
       case Some(rows) => (db.(conversions := rows), Inspect(rows, p))
       case None => (db, Rereading))
    case Rereading => (db, Inspect(db.conversions, p))
    case Repairing(o) =>
      (db.(markers := InsertIfAbsent(db.markers, p.eventId, Marker(p.conversionId, o))), Returned)
    case Requested =>
      (match PlaceOrder(db.exchange, p, mode)
       case Ok(rows) => (db.(exchange := rows), Placed)
       case Err(_) => (db, Failing(ExchangeRefused)))
    case Placed => (db, ReadResult(db.exchange, p))
    case Executed(o, reason) =>
      (match Settle(db, p, o, reason, now)
       case AlreadyClaimed => (db, Returned)
       case Settled(after) => (after, Returned)
       case RolledBack(e) => (db, Failing(SettlementRefused(e))))
    case _ => (db, pc)
  }

  /** Steps a handler still has before it, at most. */
  function Remaining(pc: Pc): nat {
    match pc
    case Received => 6
    case Unprocessed => 5
    case Rereading => 4
    case Requested => 3
    case Placed => 2
    case Repairing(_) => 1
    case Executed(_, _) => 1
    case _ => 0
  }

  /** The handler left alone with the database until it resolves or rejects. */
  function RunHandler(db: Db, p: Payload, pc: Pc, mode: Outcome, now: int): (Db, Pc)
    decreases Remaining(pc)
  {
    if !InHandler(pc) then (db, pc)
    else
      StepsRunOut(db, p, pc, mode, now);
      var (d, q) := HandlerStep(db, p, pc, mode, now);
      RunHandler(d, p, q, mode, now)
  }

  lemma StepsRunOut(db: Db, p: Payload, pc: Pc, mode: Outcome, now: int)
    requires InHandler(pc)
    ensures Remaining(HandlerStep(db, p, pc, mode, now).1) < Remaining(pc)
  {
    hide PayloadMatches, PlaceOrder, Settle, SameCommand, RequestIfReserved;
  }

  /** A run, one step unfolded. */
  lemma RunUnfolds(db: Db, p: Payload, pc: Pc, mode: Outcome, now: int)
    ensures if InHandler(pc) then
              var (d, q) := HandlerStep(db, p, pc, mode, now);
              RunHandler(db, p, pc, mode, now) == RunHandler(d, p, q, mode, now) && Remaining(q) < Remaining(pc)
            else RunHandler(db, p, pc, mode, now) == (db, pc) && Remaining(pc) == 0
  {
    hide HandlerStep;
    if InHandler(pc) {
      StepsRunOut(db, p, pc, mode, now);
    }
  }
}
