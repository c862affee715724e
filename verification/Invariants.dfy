/**
  What holds of the database in every reachable state, and how it may evolve. Each clause names the
  tables it speaks of, so a statement on other tables keeps it for free.
*/
module Invariants {
  import opened Common
  import opened Moneys
  import opened Wallets
  import opened Conversions
  import opened Pricing
  import opened Tables
  import opened Transactions
  import opened Execution
  import opened Ledger

  /** Quotes satisfy their constraints and are never worth more than what they cost. */
  predicate QuoteOk(q: QuoteRow) {
    StoredQuote(q) && Worth(q.target) <= Worth(q.source)
  }

  predicate QuotesOk(quotes: QuoteTable) {
    forall q :: q in quotes ==> QuoteOk(quotes[q])
  }

  /** A conversion belongs to an accepted quote with the same terms. */
  predicate FromQuote(c: ConversionRow, quotes: QuoteTable) {
    && c.quoteId in quotes
    && var q := quotes[c.quoteId];
    && q.status == Accepted && q.acceptedAt == Some(c.createdAt)
    && c.userId == q.userId && c.source == q.source && c.target == q.target
  }

  /** It is bound to an outbox row that carries exactly its payload. */
  predicate HasEvent(id: Id, c: ConversionRow, outbox: OutboxTable) {
    && c.eventId.Some? && c.eventId.value in outbox
    && outbox[c.eventId.value].payload == PayloadOf(c.eventId.value, id, c)
    && outbox[c.eventId.value].createdAt == c.createdAt
  }

  predicate LifecyclesOk(rows: ConversionTable) {
    forall id :: id in rows ==> Lifecycle(rows[id]) && rows[id].status != Created
  }

  predicate FromQuotes(rows: ConversionTable, quotes: QuoteTable) {
    forall id :: id in rows ==> FromQuote(rows[id], quotes)
  }

  predicate HaveEvents(rows: ConversionTable, outbox: OutboxTable) {
    forall id :: id in rows ==> HasEvent(id, rows[id], outbox)
  }

  predicate OnePerQuote(rows: ConversionTable) {
    forall a, b | a in rows && b in rows :: rows[a].quoteId == rows[b].quoteId ==> a == b
  }

  predicate HasConversion(rows: ConversionTable, q: Id) {
    exists id :: id in rows && rows[id].quoteId == q
  }

  predicate AcceptedAreConverted(quotes: QuoteTable, rows: ConversionTable) {
    forall q :: q in quotes && quotes[q].status == Accepted ==> HasConversion(rows, q)
  }

  /** The conversion an event belongs to. */
  predicate BoundTo(rows: ConversionTable, event: Id, id: Id) {
    id in rows && rows[id].eventId == Some(event)
  }

  predicate Owned(outbox: OutboxTable, rows: ConversionTable, event: Id) {
    event in outbox && BoundTo(rows, event, outbox[event].payload.conversionId)
  }

  function OwnerStatus(outbox: OutboxTable, rows: ConversionTable, event: Id): Status
    requires Owned(outbox, rows, event)
  {
    rows[outbox[event].payload.conversionId].status
  }

  predicate OutboxOwned(outbox: OutboxTable, rows: ConversionTable) {
    forall e :: e in outbox ==> Owned(outbox, rows, e)
  }

  /** Idempotency records are always complete, and describe a conversion of the quote they name. */
  predicate RecordOk(r: Record, rows: ConversionTable) {
    && r.response.Some?
    && var a := r.response.value;
    && a.conversionId in rows && a.statusCode == 201
    && r.requestHash == rows[a.conversionId].quoteId && a.body == BodyOf(a.conversionId, rows[a.conversionId])
  }

  predicate RecordsOk(records: RecordTable, rows: ConversionTable) {
    forall k :: k in records ==> RecordOk(records[k], rows)
  }

  /** Exchange orders exist only for requested conversions, and are their command. */
  predicate OrderOk(event: Id, o: ExchangeRow, outbox: OutboxTable, rows: ConversionTable) {
    && Owned(outbox, rows, event)
    && Rank(OwnerStatus(outbox, rows, event)) >= Rank(ExecutionRequested)
    && SameCommand(outbox[event].payload, o)
    && o.reason == ExchangeReason(o.outcome)
  }

  predicate OrdersOk(exchange: ExchangeTable, outbox: OutboxTable, rows: ConversionTable) {
    forall e :: e in exchange ==> OrderOk(e, exchange[e], outbox, rows)
  }

  /** A terminal status is the result of the exchange order. */
  predicate ResultOk(c: ConversionRow, exchange: ExchangeTable) {
    Terminal(c.status) ==>
      c.eventId.Some? && c.eventId.value in exchange
      && exchange[c.eventId.value].outcome == OutcomeOf(c.status)
  }

  predicate ResultsOk(rows: ConversionTable, exchange: ExchangeTable) {
    forall id :: id in rows ==> ResultOk(rows[id], exchange)
  }

  /** A processed marker stands for a terminal conversion and records its result. */
  predicate MarkerOk(event: Id, m: Marker, outbox: OutboxTable, rows: ConversionTable) {
    && Owned(outbox, rows, event) && m.conversionId == outbox[event].payload.conversionId
    && Terminal(OwnerStatus(outbox, rows, event)) && m.outcome == OutcomeOf(OwnerStatus(outbox, rows, event))
  }

  predicate MarkersOk(markers: MarkerTable, outbox: OutboxTable, rows: ConversionTable) {
    forall e :: e in markers ==> MarkerOk(e, markers[e], outbox, rows)
  }

  /** The conversion rows and everything that describes them. */
  predicate RowsInv(quotes: QuoteTable, rows: ConversionTable, outbox: OutboxTable) {
    && LifecyclesOk(rows) && FromQuotes(rows, quotes) && HaveEvents(rows, outbox) && OnePerQuote(rows)
    && QuotesOk(quotes) && AcceptedAreConverted(quotes, rows) && OutboxOwned(outbox, rows)
  }

  predicate TablesInv(db: Db) {
    && RowsInv(db.quotes, db.conversions, db.outbox)
    && RecordsOk(db.records, db.conversions)
    && OrdersOk(db.exchange, db.outbox, db.conversions)
    && ResultsOk(db.conversions, db.exchange)
    && MarkersOk(db.markers, db.outbox, db.conversions)
  }

  ghost predicate DbInv(db: Db, funded: map<WalletKey, nat>) {
    TablesInv(db) && LedgerOk(db.wallets, db.conversions, funded)
  }

  // ----- evolution

  predicate ConversionEvolves(a: ConversionRow, b: ConversionRow) {
    && SameIdentity(a, b) && Rank(a.status) <= Rank(b.status)
    && (Terminal(a.status) ==> a == b)
  }

  predicate ConversionsEvolve(a: ConversionTable, b: ConversionTable) {
    forall id :: id in a ==> id in b && ConversionEvolves(a[id], b[id])
  }

  predicate QuoteEvolves(a: QuoteRow, b: QuoteRow) {
    && b == a.(status := b.status, acceptedAt := b.acceptedAt)
    && (a.status == Accepted ==> a == b)
  }

  predicate QuotesEvolve(a: QuoteTable, b: QuoteTable) {
    forall q :: q in a ==> q in b && QuoteEvolves(a[q], b[q])
  }

  predicate OutboxEvolves(a: OutboxTable, b: OutboxTable) {
    forall e :: e in a ==> e in b && a[e].payload == b[e].payload
  }

  predicate ExchangeEvolves(a: ExchangeTable, b: ExchangeTable) {
    forall e :: e in a ==> e in b && a[e] == b[e]
  }

  /** Rows of these tables are never lost; identities and payloads are frozen, statuses only rise,
      terminal conversions, accepted quotes and exchange orders are final. */
  predicate Evolves(a: Db, b: Db) {
    && ConversionsEvolve(a.conversions, b.conversions) && QuotesEvolve(a.quotes, b.quotes)
    && OutboxEvolves(a.outbox, b.outbox) && ExchangeEvolves(a.exchange, b.exchange)
  }

  lemma EvolvesReflexive(db: Db)
    ensures ConversionsEvolve(db.conversions, db.conversions) && QuotesEvolve(db.quotes, db.quotes)
    ensures OutboxEvolves(db.outbox, db.outbox) && ExchangeEvolves(db.exchange, db.exchange)
    ensures Evolves(db, db)
  {
  }

  lemma EvolvesTransitive(a: Db, b: Db, c: Db)
    requires Evolves(a, b) && Evolves(b, c)
    ensures Evolves(a, c)
  {
  }

  lemma PayloadNames(event: Id, id: Id, c: ConversionRow)
    ensures PayloadOf(event, id, c).conversionId == id && PayloadOf(event, id, c).eventId == event
  {
  }

  /** Payloads, bodies and the payload check depend on the identity columns only. */
  lemma SameTexts(a: ConversionRow, b: ConversionRow)
    requires SameIdentity(a, b)
    ensures forall p :: PayloadMatches(p, a) <==> PayloadMatches(p, b)
    ensures forall e, id :: PayloadOf(e, id, a) == PayloadOf(e, id, b)
    ensures forall id :: BodyOf(id, a) == BodyOf(id, b)
  {
    hide Of, ShortText;
  }

  /** An event is bound to one conversion only. */
  lemma BoundOnce(outbox: OutboxTable, rows: ConversionTable, event: Id, a: Id, b: Id)
    requires HaveEvents(rows, outbox)
    requires BoundTo(rows, event, a) && BoundTo(rows, event, b)
    ensures a == b && event in outbox && outbox[event].payload == PayloadOf(event, a, rows[a])
    ensures outbox[event].payload.conversionId == a
  {
    hide PayloadOf;
    assert HasEvent(a, rows[a], outbox) && HasEvent(b, rows[b], outbox);
    PayloadNames(event, a, rows[a]);
    PayloadNames(event, b, rows[b]);
  }

  // ----- what a worker knows

  /** The payload is the genuine command of a conversion that was already requested. */
  predicate Genuine(rows: ConversionTable, p: Payload) {
    && BoundTo(rows, p.eventId, p.conversionId)
    && PayloadMatches(p, rows[p.conversionId])
    && Rank(rows[p.conversionId].status) >= Rank(ExecutionRequested)
  }

  predicate WorkerOk(db: Db, p: Payload, pc: Pc) {
    match pc
    case Requested => Genuine(db.conversions, p)
    case Placed => Genuine(db.conversions, p) && p.eventId in db.exchange
    case Executed(o, reason) =>
      && Genuine(db.conversions, p) && p.eventId in db.exchange
      && o == db.exchange[p.eventId].outcome && reason == db.exchange[p.eventId].reason
    case Repairing(o) =>
      && Genuine(db.conversions, p) && Terminal(db.conversions[p.conversionId].status)
      && o == OutcomeOf(db.conversions[p.conversionId].status)
    case Returned => Owned(db.outbox, db.conversions, p.eventId) && Terminal(OwnerStatus(db.outbox, db.conversions,
                                                                                         p.eventId))
    case Failing(e) =>
      && e != ExchangeRefused
      && (e.SettlementRefused? ==> e.cause == WalletRefused(ConstraintViolated))
    case _ => true
  }

  /** What a worker knows stays true however the rest of the system moves. */
  lemma WorkerKnowledgeIsStable(a: Db, b: Db, p: Payload, pc: Pc)
    requires Evolves(a, b) && WorkerOk(a, p, pc)
    ensures WorkerOk(b, p, pc)
  {
    hide PayloadMatches, QuotesEvolve;
    if Genuine(a.conversions, p) {
      SameTexts(a.conversions[p.conversionId], b.conversions[p.conversionId]);
    }
  }
}
