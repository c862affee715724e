/**
  The two all-or-nothing transactions: accepting a quote
  (src/modules/conversion/application/accept-quote.use-case.ts) and settling an execution
  (src/modules/conversion/application/process-conversion-execution.use-case.ts), statement by
  statement in the source's order. A result of Err means the transaction rolled back.
*/
module Transactions {
  import opened Common
  import opened Moneys
  import opened Wallets
  import opened Conversions
  import opened Pricing
  import opened Tables

  datatype AcceptError =
    | IdempotencyKeyReuse
    | IdempotencyInProgress
    | IdempotencyRace
    | QuoteNotFound
    | QuoteExpiredError
    | QuoteAlreadyAcceptedError
    | QuoteAcceptConflict
    | InsufficientAvailableBalance
    | InternalError

  datatype AcceptResult =
    | Answered(statusCode: nat, body: Body, replay: bool)
    | Rejected(error: AcceptError)

  // ----- accept

  /** What a request finds under a key that is already taken. */
  function AnswerFor(r: Record, quoteId: Id): AcceptResult {
    if r.requestHash != quoteId then Rejected(IdempotencyKeyReuse)
    else match r.response
         case None => Rejected(IdempotencyInProgress)
         case Some(answer) => Answered(answer.statusCode, answer.body, true)
  }

  /** complete: fills the claimed record; zero updated rows is an error. */
  function CompleteRecord(records: RecordTable, key: Id, answer: Response): Option<RecordTable> {
    if key in records then Some(records[key := records[key].(response := Some(answer))]) else None
  }

  /** The unique index on conversions.quote_id. */
  predicate QuoteUnused(rows: ConversionTable, id: Id, quoteId: Id) {
    forall k :: k in rows && k != id ==> rows[k].quoteId != quoteId
  }

  /** Reserving the funds and finishing the conversion row: CREATED, then FUNDS_RESERVED, then bound. */
  function ReserveAndBind(db: Db, id: Id, event: Id, created: ConversionRow): Result<Db, AcceptError> {
    var saved := SaveConversion(db.conversions, id, created);
    match UpdateRow(db.wallets, WalletKey(created.userId, created.source.asset), Reserve, created.source.units)
    case Err(e) => Err(if e == ConstraintViolated then InternalError else InsufficientAvailableBalance)
    case Ok(wallets) =>
      match MarkFundsReserved(created)
      case Err(_) => Err(InternalError)
      case Ok(reserved) =>
        match BindExecutionEvent(reserved, event)
        case Err(_) => Err(InternalError)
        case Ok(bound) => Ok(db.(wallets := wallets, conversions := SaveConversion(saved, id, bound)))
  }

  /** The transaction after the key was claimed. `seen` is the quote row as an earlier statement of the
      same transaction read it; the conditional update works on the current row. */
  function AcceptWork(db: Db, key: Id, quoteId: Id, seen: Option<QuoteRow>, now: int, id: Id, event: Id)
    : Result<(Db, Body), AcceptError>
  {
    match seen
    case None => Err(QuoteNotFound)
    case Some(loaded) =>
      match AcceptInMemory(loaded, now)
      case Err(e) => Err(if e == AlreadyAccepted then QuoteAlreadyAcceptedError else QuoteExpiredError)
      case Ok(q) =>
        match SaveAccepted(db.quotes, quoteId, now, now)
        case None => Err(QuoteAcceptConflict)
        case Some(quotes) =>
          match Create(quoteId, q.userId, q.source, q.target, now)
          case Err(_) => Err(InternalError)
          case Ok(created) =>
            if !QuoteUnused(db.conversions, id, quoteId) then Err(InternalError) else
            match ReserveAndBind(db.(quotes := quotes), id, event, created)
            case Err(e) => Err(e)
            case Ok(reserved) => Finish(reserved, key, now, id, event)
  }

  /** Enqueueing the event and storing the response. */
  function Finish(db: Db, key: Id, now: int, id: Id, event: Id): Result<(Db, Body), AcceptError>
  {
    if id !in db.conversions || event in db.outbox then Err(InternalError) else
    var c := db.conversions[id];
    var body := Body(id, c.quoteId, c.userId, c.status, c.source.asset.Code(), c.target.asset.Code(),
                     ShortText(c.source), ShortText(c.target), c.createdAt);
    match CompleteRecord(db.records, key, Response(201, body, id))
    case None => Err(InternalError)
    case Some(records) =>
      Ok((db.(records := records,
              outbox := db.outbox[event := OutboxRow(PayloadOf(event, id, c), now, None)]), body))
  }

  /** The whole request: claim the key or answer from its record; an abort leaves the database alone. */
  function Accept(db: Db, key: Id, quoteId: Id, seen: Option<QuoteRow>, now: int, id: Id, event: Id): (Db,
                  AcceptResult) {
    if key in db.records then (db, AnswerFor(db.records[key], quoteId))
    else
      var claimed := db.(records := db.records[key := Record(quoteId, None, now)]);
      match AcceptWork(claimed, key, quoteId, seen, now, id, event)
      case Ok((after, body)) => (after, Answered(201, body, false))
      case Err(e) => (db, Rejected(e))
  }

  // ----- settle

  datatype SettleError =
    | WalletRefused(wallet: WalletError)
    | LifecycleRefused(conversion: ConversionError)
    | Disappeared

  predicate MovesFunds(s: Status) {
    s.ExecutionRequested? || s.RequiresReconciliation?
  }

  /** commitReservation on the source wallet, then the target wallet is ensured and credited. */
  function CommitAndCredit(ws: WalletTable, c: ConversionRow): Result<WalletTable, WalletError> {
    match UpdateRow(ws, WalletKey(c.userId, c.source.asset), Commit, c.source.units)
    case Err(e) => Err(e)
    case Ok(committed) =>
      var target := WalletKey(c.userId, c.target.asset);
      UpdateRow(CreateIfMissing(committed, target), target, Credit, c.target.units)
  }

  /** The wallet movement an outcome asks for, given the conversion's status. */
  function MoveFunds(ws: WalletTable, c: ConversionRow, outcome: Outcome): Result<WalletTable, WalletError> {
    if !MovesFunds(c.status) || outcome == Unknown then Ok(ws)
    else if outcome == Success then CommitAndCredit(ws, c)
    else UpdateRow(ws, WalletKey(c.userId, c.source.asset), Release, c.source.units)
  }

  /** applyOutcome: a duplicate of a final result returns at once; otherwise wallets move, the
      aggregate takes the result and the row is saved. */
  function ApplyOutcome(db: Db, id: Id, c: ConversionRow, outcome: Outcome, now: int, reason: Option<string>)
    : Result<Db, SettleError>
  {
    if (outcome == Success && c.status == Completed) || (outcome == Failure && c.status == Failed) then Ok(db)
    else
      match MoveFunds(db.wallets, c, outcome)
      case Err(e) => Err(WalletRefused(e))
      case Ok(wallets) =>
        match ApplyResult(c, outcome, now, reason)
        case Err(e) => Err(LifecycleRefused(e))
        case Ok(settled) =>
          Ok(db.(wallets := wallets, conversions := SaveConversion(db.conversions, id, settled)))
  }

  datatype SettleResult = AlreadyClaimed | Settled(db: Db) | RolledBack(error: SettleError)

  /** The settlement after the claim: the conversion is read afresh and takes the outcome. */
  function SettleClaimed(db: Db, p: Payload, outcome: Outcome, reason: Option<string>, now: int): Result<Db,
                         SettleError> {
    if p.conversionId !in db.conversions then Err(Disappeared)
    else
      var latest := db.conversions[p.conversionId];
      var requested := if latest.status == FundsReserved then MarkExecutionRequested(latest, p.eventId) else Ok(latest);
      match requested
      case Err(e) => Err(LifecycleRefused(e))
      case Ok(c) => ApplyOutcome(db, p.conversionId, c, outcome, now, reason)
  }

  /** The settlement transaction: claim the event, or leave it to whoever did. */
  function Settle(db: Db, p: Payload, outcome: Outcome, reason: Option<string>, now: int): SettleResult {
    if p.eventId in db.markers then AlreadyClaimed
    else
      match SettleClaimed(db.(markers := db.markers[p.eventId := Marker(p.conversionId, outcome)]), p, outcome,
                          reason, now)
      case Ok(after) => Settled(after)
      case Err(e) => RolledBack(e)
  }
}
