/**
  The database of the application: one map per table, and the small statements of the repositories that
  are not in Wallets, Conversions or Pricing.
*/
module Tables {
  import opened Common
  import opened Moneys
  import opened Wallets
  import opened Conversions
  import opened Pricing

  const EVENT_TYPE := "ConversionExecutionRequested"

  /** The message of one conversion; amounts travel as text, and a foreign producer may put anything in
      any field. `occurredAt` is None when the timestamp does not parse. */
  datatype Payload = Payload(
    eventId: Id,
    eventType: string,
    conversionId: Id,
    userId: Id,
    sourceAsset: string,
    targetAsset: string,
    sourceAmount: string,
    targetAmount: string,
    occurredAt: Option<int>)

  datatype OutboxRow = OutboxRow(payload: Payload, createdAt: int, publishedAt: Option<int>)

  /** The 201 body of an accepted quote. */
  datatype Body = Body(
    conversionId: Id,
    quoteId: Id,
    userId: Id,
    status: Status,
    sourceAsset: string,
    targetAsset: string,
    sourceAmount: string,
    targetAmount: string,
    createdAt: int)

  datatype Response = Response(statusCode: nat, body: Body, conversionId: Id)

  /** An idempotency record. The fingerprint is an injective function of the quote id, modelled as the id. */
  datatype Record = Record(requestHash: Id, response: Option<Response>, createdAt: int)

  datatype Marker = Marker(conversionId: Id, outcome: Outcome)

  /** A row of the fake exchange; amounts are NUMERIC(38,18) values. */
  datatype ExchangeRow = ExchangeRow(
    conversionId: Id,
    userId: Id,
    sourceAsset: string,
    targetAsset: string,
    sourceAmount: nat,
    targetAmount: nat,
    outcome: Outcome,
    reason: Option<string>)

  type ConversionTable = map<Id, ConversionRow>
  type OutboxTable = map<Id, OutboxRow>
  type RecordTable = map<Id, Record>
  type MarkerTable = map<Id, Marker>
  type ExchangeTable = map<Id, ExchangeRow>

  datatype Db = Db(
    wallets: WalletTable,
    quotes: QuoteTable,
    conversions: ConversionTable,
    outbox: OutboxTable,
    records: RecordTable,
    markers: MarkerTable,
    exchange: ExchangeTable)

  /** save: an upsert that only ever updates the lifecycle columns of an existing row. */
  function SaveConversion(rows: ConversionTable, id: Id, c: ConversionRow): ConversionTable {
    rows[id := if id !in rows then c
               else rows[id].(status := c.status, eventId := c.eventId,
                              failureReason := c.failureReason, completedAt := c.completedAt)]
  }

  /** markExecutionRequestedIfFundsReserved, first statement: the conditional UPDATE. */
  function RequestIfReserved(rows: ConversionTable, id: Id, event: Id): Option<ConversionTable> {
    if id in rows && rows[id].status == FundsReserved && rows[id].eventId == Some(event)
    then Some(rows[id := rows[id].(status := ExecutionRequested)])
    else None
  }

  /** tryRecord and tryBegin: INSERT ... ON CONFLICT DO NOTHING. */
  function InsertIfAbsent<V>(rows: map<Id, V>, id: Id, row: V): map<Id, V> {
    if id in rows then rows else rows[id := row]
  }

  /** The reason the fake exchange gives with each result. */
  function ExchangeReason(o: Outcome): Option<string> {
    match o
    case Success => None
    case Failure => Some("simulated_exchange_failure")
    case Unknown => Some("simulated_exchange_timeout")
  }

  /** The exchange's insert: the first command of an order decides its result. */
  function PlaceOrder(rows: ExchangeTable, p: Payload, mode: Outcome): Result<ExchangeTable, MoneyError> {
    match (Numeric(p.sourceAmount), Numeric(p.targetAmount))
    case (Ok(source), Ok(target)) =>
      Ok(InsertIfAbsent(rows, p.eventId,
                        ExchangeRow(p.conversionId, p.userId, p.sourceAsset, p.targetAsset, source, target,
                                    mode, ExchangeReason(mode))))
    case (Err(e), _) => Err(e)
    case (_, Err(e)) => Err(e)
  }

  /** assertSameCommand. */
  predicate SameCommand(p: Payload, row: ExchangeRow) {
    && row.conversionId == p.conversionId && row.userId == p.userId
    && row.sourceAsset == p.sourceAsset && row.targetAsset == p.targetAsset
    && Numeric(p.sourceAmount) == Ok(row.sourceAmount)
    && Numeric(p.targetAmount) == Ok(row.targetAmount)
  }

  /** The payload accept enqueues for a conversion. */
  function PayloadOf(event: Id, id: Id, c: ConversionRow): Payload {
    Payload(event, EVENT_TYPE, id, c.userId, c.source.asset.Code(), c.target.asset.Code(),
            ShortText(c.source), ShortText(c.target), Some(c.createdAt))
  }

  /** The body accept answers with. */
  function BodyOf(id: Id, c: ConversionRow): Body {
    Body(id, c.quoteId, c.userId, FundsReserved, c.source.asset.Code(), c.target.asset.Code(),
         ShortText(c.source), ShortText(c.target), c.createdAt)
  }

  /** assertPayloadMatchesConversion. */
  predicate PayloadMatches(p: Payload, c: ConversionRow) {
    && p.eventType == EVENT_TYPE
    && p.userId == c.userId
    && p.sourceAsset == c.source.asset.Code() && p.targetAsset == c.target.asset.Code()
    && Of(p.sourceAmount, c.source.asset) == Ok(c.source)
    && Of(p.targetAmount, c.target.asset) == Ok(c.target)
    && p.occurredAt.Some?
  }

  /** What accept writes always passes the worker's check. */
  lemma OwnPayloadMatches(event: Id, id: Id, c: ConversionRow)
    ensures PayloadMatches(PayloadOf(event, id, c), c)
  {
    hide Of, ShortText;
    TextIsFaithful(c.source);
    TextIsFaithful(c.target);
  }

  /** Payloads that pass the worker's check for one conversion and carry one order id are the same
      command to the exchange, even if they spell the amounts differently. */
  lemma MatchingPayloadsAreOneCommand(p: Payload, q: Payload, c: ConversionRow, row: ExchangeRow)
    requires PayloadMatches(p, c) && PayloadMatches(q, c) && p.conversionId == q.conversionId
    ensures SameCommand(p, row) <==> SameCommand(q, row)
  {
    hide Of, Numeric;
    NumericOfMoney(p.sourceAmount, c.source);
    NumericOfMoney(p.targetAmount, c.target);
    NumericOfMoney(q.sourceAmount, c.source);
    NumericOfMoney(q.targetAmount, c.target);
  }

  /** A checked payload can be placed, and the order it opens is its command. */
  lemma CheckedPayloadIsPlaced(rows: ExchangeTable, p: Payload, c: ConversionRow, mode: Outcome)
    requires PayloadMatches(p, c)
    ensures var placed := PlaceOrder(rows, p, mode);
            && placed.Ok? && p.eventId in placed.value
            && if p.eventId in rows then placed.value == rows
               else var o := placed.value[p.eventId];
                    && placed.value == rows[p.eventId := o] && SameCommand(p, o)
                    && o.outcome == mode && o.reason == ExchangeReason(mode)
  {
    hide Of, Numeric;
    NumericOfMoney(p.sourceAmount, c.source);
    NumericOfMoney(p.targetAmount, c.target);
  }
}
