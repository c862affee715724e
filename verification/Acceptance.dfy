/** Accepting quotes, over every run: correspondence of rows, all-or-nothing, and idempotent replay. */
module Acceptance {
  import opened Common
  import opened Moneys
  import opened Wallets
  import opened Conversions
  import opened Pricing
  import opened Tables
  import opened Transactions
  import opened Ledger
  import opened Invariants
  import opened AcceptProof
  import opened Protocol
  import opened StateProof
  import opened Guarantees

  /** The conversion of a quote. */
  predicate Converts(rows: ConversionTable, quoteId: Id, id: Id) {
    id in rows && rows[id].quoteId == quoteId
  }

  /** Accepted quotes and conversions are in one-to-one correspondence, with equal terms and times. */
  lemma AcceptedQuotesAreConversions(maxRetries: nat, steps: seq<Step>, q: Id)
    ensures var s := After(maxRetries, steps);
            && ((q in s.db.quotes && s.db.quotes[q].status == Accepted)
                <==> exists id :: Converts(s.db.conversions, q, id))
            && (forall a, b :: Converts(s.db.conversions, q, a) && Converts(s.db.conversions, q, b) ==> a == b)
            && (forall id :: Converts(s.db.conversions, q, id) ==> FromQuote(s.db.conversions[id], s.db.quotes))
  {
    hide After, StateInv, DbInv, LedgerOk, WorkersOk, AcceptingOk, EventsKept;
    hide RecordsOk, OrdersOk, ResultsOk, MarkersOk, HaveEvents, LifecyclesOk, QuotesOk, OutboxOwned;
    ReachableState(maxRetries, steps);
    var s := After(maxRetries, steps);
    UnpackState(s);
    if q in s.db.quotes && s.db.quotes[q].status == Accepted {
      assert HasConversion(s.db.conversions, q);
      var id :| id in s.db.conversions && s.db.conversions[id].quoteId == q;
      assert Converts(s.db.conversions, q, id);
    }
  }

  /** Conversions and outbox rows are in one-to-one correspondence: the row's id is the bound event id,
      its payload spells the conversion's terms, and the worker's own check passes on it. */
  lemma ConversionsAreEvents(maxRetries: nat, steps: seq<Step>, event: Id)
    ensures var s := After(maxRetries, steps);
            && (event in s.db.outbox <==> exists id :: BoundTo(s.db.conversions, event, id))
            && (forall a, b :: BoundTo(s.db.conversions, event, a) && BoundTo(s.db.conversions, event, b) ==> a == b)
            && (forall id :: BoundTo(s.db.conversions, event, id) ==>
                  var c := s.db.conversions[id];
                  s.db.outbox[event].payload == PayloadOf(event, id, c) && PayloadMatches(PayloadOf(event, id, c), c))
            && (forall id :: id in s.db.conversions ==> s.db.conversions[id].eventId.Some?)
  {
    hide After, StateInv, DbInv, LedgerOk, WorkersOk, AcceptingOk, EventsKept, PayloadOf, PayloadMatches;
    hide RecordsOk, OrdersOk, ResultsOk, MarkersOk, LifecyclesOk, QuotesOk, OnePerQuote, FromQuotes;
    hide AcceptedAreConverted;
    ReachableState(maxRetries, steps);
    var s := After(maxRetries, steps);
    UnpackState(s);
    if event in s.db.outbox {
      assert Owned(s.db.outbox, s.db.conversions, event);
    }
    forall a | BoundTo(s.db.conversions, event, a)
      ensures event in s.db.outbox && s.db.outbox[event].payload == PayloadOf(event, a, s.db.conversions[a])
      ensures PayloadMatches(PayloadOf(event, a, s.db.conversions[a]), s.db.conversions[a])
      ensures s.db.outbox[event].payload.conversionId == a
    {
      BoundOnce(s.db.outbox, s.db.conversions, event, a, a);
      OwnPayloadMatches(event, a, s.db.conversions[a]);
    }
    forall id | id in s.db.conversions ensures s.db.conversions[id].eventId.Some? {
      assert HasEvent(id, s.db.conversions[id], s.db.outbox);
    }
  }

  /** An open accept transaction, whatever happened since it read its quote: it commits exactly when that
      quote was and still is active, has not expired and is covered by the available funds, and then with
      all its rows at once; otherwise the database is untouched. */
  lemma AcceptIsAllOrNothing(maxRetries: nat, steps: seq<Step>, tx: Id, id: Id, event: Id)
    requires var s := After(maxRetries, steps);
             tx in s.accepting && id !in s.db.conversions && event !in s.db.outbox
    ensures var s := After(maxRetries, steps);
            var a := s.accepting[tx];
            var (after, result) := Accept(s.db, a.key, a.quoteId, a.seen, a.now, id, event);
            && After(maxRetries, steps + [CommitAccept(tx, id, event)]).db == after
            && if Acceptable(s.db, a.quoteId, a.seen, a.now) then
                 var q := s.db.quotes[a.quoteId];
                 && UpdateRow(s.db.wallets, WalletKey(q.userId, q.source.asset), Reserve, q.source.units).Ok?
                 && after == AfterAccept(s.db, a.key, a.quoteId, a.now, id, event)
                 && result == Answered(201, BodyOf(id, AcceptedRow(a.quoteId, q, a.now, event)), false)
               else result.Rejected? && after == s.db
  {
    hide After, StateInv, DbInv, LedgerOk, WorkersOk, EventsKept, Accept, AfterAccept, UpdateRow, Acceptable;
    hide SeenOk, BodyOf;
    hide RecordsOk, OrdersOk, ResultsOk, MarkersOk, LifecyclesOk, QuotesOk, OnePerQuote, FromQuotes;
    hide AcceptedAreConverted;
    ReachableState(maxRetries, steps);
    var s := After(maxRetries, steps);
    UnpackState(s);
    NextState(maxRetries, steps, CommitAccept(tx, id, event));
    var a := s.accepting[tx];
    AcceptCommitsAllOrNothing(s.db, s.funded, a.key, a.quoteId, a.seen, a.now, id, event);
  }

  /** The answer to an open request, in every reachable state: one cause for each error, and no other error. */
  lemma OpenRequestsAreAnswered(maxRetries: nat, steps: seq<Step>, tx: Id, id: Id, event: Id)
    requires var s := After(maxRetries, steps);
             tx in s.accepting && id !in s.db.conversions && event !in s.db.outbox
    ensures var s := After(maxRetries, steps);
            var a := s.accepting[tx];
            var result := Accept(s.db, a.key, a.quoteId, a.seen, a.now, id, event).1;
            var active := a.seen.Some? && a.seen.value.status == Active;
            var acceptable := active && a.now <= a.seen.value.expiresAt;
            var current := a.quoteId in s.db.quotes && s.db.quotes[a.quoteId].status == Active;
            var covered := && a.seen.Some?
                           && var k := WalletKey(a.seen.value.userId, a.seen.value.source.asset);
                           k in s.db.wallets && s.db.wallets[k].available >= a.seen.value.source.units;
            && (result == Rejected(QuoteNotFound) <==> a.seen.None?)
            && (result == Rejected(QuoteAlreadyAcceptedError) <==> a.seen.Some? && a.seen.value.status == Accepted)
            && (result == Rejected(QuoteExpiredError) <==> active && a.now > a.seen.value.expiresAt)
            && (result == Rejected(QuoteAcceptConflict) <==> acceptable && !current)
            && (result == Rejected(InsufficientAvailableBalance) <==> acceptable && current && !covered)
            && (result.Answered? <==> acceptable && current && covered)
            && result != Rejected(InternalError)
  {
    hide After, StateInv, DbInv, LedgerOk, WorkersOk, EventsKept, Accept, AfterAccept, UpdateRow, BodyOf, Worth;
    hide RecordsOk, OrdersOk, ResultsOk, MarkersOk, LifecyclesOk, QuotesOk, OnePerQuote, FromQuotes;
    hide AcceptedAreConverted, HaveEvents, OutboxOwned, FitsColumn;
    ReachableState(maxRetries, steps);
    var s := After(maxRetries, steps);
    UnpackState(s);
    var a := s.accepting[tx];
    assert SeenOk(s.db, a.quoteId, a.seen);
    AcceptCommitsAllOrNothing(s.db, s.funded, a.key, a.quoteId, a.seen, a.now, id, event);
  }

  /** What a commit writes, column by column: the answer, the conversion, its event, the record of the key, the
      accepted quote and the reserved funds, all in the quote's own assets and amounts. */
  lemma CreatedRows(maxRetries: nat, steps: seq<Step>, tx: Id, id: Id, event: Id)
    requires var s := After(maxRetries, steps);
             tx in s.accepting && id !in s.db.conversions && event !in s.db.outbox
    requires var s := After(maxRetries, steps);
             var a := s.accepting[tx];
             Accept(s.db, a.key, a.quoteId, a.seen, a.now, id, event).1.Answered?
    ensures var s := After(maxRetries, steps);
            var a := s.accepting[tx];
            var t := After(maxRetries, steps + [CommitAccept(tx, id, event)]).db;
            var result := Accept(s.db, a.key, a.quoteId, a.seen, a.now, id, event).1;
            && a.quoteId in s.db.quotes && event in t.outbox
            && var q, p, b := s.db.quotes[a.quoteId], t.outbox[event].payload, result.body;
            var k := WalletKey(q.userId, q.source.asset);
            && result.statusCode == 201 && !result.replay
            && b.conversionId == id && b.quoteId == a.quoteId && b.userId == q.userId && b.status == FundsReserved
            && b.sourceAsset == (if q.source.asset == USDT then "USDT" else "BTC")
            && b.targetAsset == (if q.target.asset == USDT then "USDT" else "BTC")
            && b.sourceAmount == ShortText(q.source) && b.targetAmount == ShortText(q.target) && b.createdAt == a.now
            && p.eventId == event && p.eventType == "ConversionExecutionRequested" && p.conversionId == id
            && p.userId == q.userId && p.sourceAsset == b.sourceAsset && p.targetAsset == b.targetAsset
            && p.sourceAmount == b.sourceAmount && p.targetAmount == b.targetAmount && p.occurredAt == Some(a.now)
            && t.outbox == s.db.outbox[event := OutboxRow(p, a.now, None)]
            && t.conversions == s.db.conversions[id := ConversionRow(a.quoteId, q.userId, q.source, q.target,
                                                                     FundsReserved, Some(event), a.now, None, None)]
            && t.records == s.db.records[a.key := Record(a.quoteId, Some(Response(201, b, id)), a.now)]
            && t.quotes == s.db.quotes[a.quoteId := q.(status := Accepted, acceptedAt := Some(a.now))]
            && k in s.db.wallets
            && var r := s.db.wallets[k];
            && t.wallets == s.db.wallets[k := WalletRow(r.balance, r.available - q.source.units,
                                                        r.reserved + q.source.units)]
            && t.markers == s.db.markers && t.exchange == s.db.exchange
  {
    hide After, StateInv, DbInv, LedgerOk, WorkersOk, EventsKept, Accept, SeenOk, ShortText, Stored;
    hide RecordsOk, OrdersOk, ResultsOk, MarkersOk, LifecyclesOk, QuotesOk, OnePerQuote, FromQuotes;
    hide AcceptedAreConverted, HaveEvents, OutboxOwned;
    AcceptIsAllOrNothing(maxRetries, steps, tx, id, event);
  }

  // ----- replay

  /** No stored record is ever unfinished, so no later request is ever told that its key is in progress,
      although cleanup may delete any record at any time. */
  lemma RecordsAreComplete(maxRetries: nat, steps: seq<Step>, key: Id, quoteId: Id)
    requires key in After(maxRetries, steps).db.records
    ensures var r := After(maxRetries, steps).db.records[key];
            r.response.Some? && AnswerFor(r, quoteId) != Rejected(IdempotencyInProgress)
  {
    hide After, StateInv, DbInv, LedgerOk, WorkersOk, EventsKept, AcceptingOk, BodyOf, RowsInv, OrdersOk;
    hide ResultsOk, MarkersOk;
    ReachableState(maxRetries, steps);
    UnpackState(After(maxRetries, steps));
    assert RecordOk(After(maxRetries, steps).db.records[key], After(maxRetries, steps).db.conversions);
  }

  /** A request whose key is stored, whatever quote it names and whatever it would have read: nothing changes, a
      fingerprint of another quote is refused, and its own is answered with the body of the conversion. */
  lemma StoredKeysAnswer(maxRetries: nat, steps: seq<Step>, key: Id, quoteId: Id, seen: Option<QuoteRow>,
                         now: int, id: Id, event: Id)
    requires key in After(maxRetries, steps).db.records
    ensures var s := After(maxRetries, steps);
            var (after, result) := Accept(s.db, key, quoteId, seen, now, id, event);
            && after == s.db
            && if s.db.records[key].requestHash != quoteId then result == Rejected(IdempotencyKeyReuse)
               else exists first :: Converts(s.db.conversions, quoteId, first)
                                    && result == Answered(201, BodyOf(first, s.db.conversions[first]), true)
  {
    hide After, StateInv, DbInv, LedgerOk, WorkersOk, EventsKept, AcceptingOk, BodyOf, RowsInv, OrdersOk, ResultsOk;
    hide MarkersOk, AcceptWork;
    ReachableState(maxRetries, steps);
    var s := After(maxRetries, steps);
    UnpackState(s);
    var r := s.db.records[key];
    assert RecordOk(r, s.db.conversions);
    if r.requestHash == quoteId {
      assert Converts(s.db.conversions, quoteId, r.response.value.conversionId);
    }
  }

  /** What a request for an already converted quote finds in a later state. */
  lemma RetryInState(db: Db, key: Id, quoteId: Id, first: Id, seen: Option<QuoteRow>, now: int, id: Id, event: Id)
    requires TablesInv(db) && Converts(db.conversions, quoteId, first) && SeenOk(db, quoteId, seen) && seen.Some?
    ensures var (after, result) := Accept(db, key, quoteId, seen, now, id, event);
            && after == db
            && if key in db.records then
                 if db.records[key].requestHash == quoteId
                 then result == Answered(201, BodyOf(first, db.conversions[first]), true)
                 else result == Rejected(IdempotencyKeyReuse)
               else result == Rejected(if seen.value.status == Accepted then QuoteAlreadyAcceptedError
                                       else if IsExpired(seen.value, now) then QuoteExpiredError
                                       else QuoteAcceptConflict)
  {
    hide BodyOf, OrdersOk, ResultsOk, MarkersOk, LifecyclesOk, HaveEvents, OutboxOwned, AcceptedAreConverted;
    hide Worth, FitsColumn;
    hide UpdateRow, ReserveAndBind, Finish;
    assert FromQuote(db.conversions[first], db.quotes);
    if key in db.records {
      assert RecordOk(db.records[key], db.conversions);
    }
  }

  /** Once a quote has become conversion `first`, every later request for it, at any point of any run
      and with any key, changes nothing. While a record of the key is kept it is answered with the body of
      `first`, the very same each time, or refused if that key belongs to another quote; without a record it
      is refused, so deleting records never lets a retry create a second conversion. */
  lemma RetriesReplay(maxRetries: nat, steps: seq<Step>, more: seq<Step>, key: Id, quoteId: Id, first: Id,
                      now: int, id: Id, event: Id)
    requires Converts(After(maxRetries, steps).db.conversions, quoteId, first)
    ensures var t := After(maxRetries, steps + more);
            && quoteId in t.db.quotes
            && var (after, result) := Accept(t.db, key, quoteId, Some(t.db.quotes[quoteId]), now, id, event);
            && after == t.db
            && if key in t.db.records then
                 if t.db.records[key].requestHash == quoteId
                 then result == Answered(201, BodyOf(first, After(maxRetries, steps).db.conversions[first]), true)
                 else result == Rejected(IdempotencyKeyReuse)
               else result == Rejected(QuoteAlreadyAcceptedError)
  {
    hide After, StateInv, DbInv, LedgerOk, WorkersOk, AcceptingOk, EventsKept, Accept, BodyOf;
    hide RecordsOk, OrdersOk, ResultsOk, MarkersOk, HaveEvents, LifecyclesOk, OutboxOwned, OnePerQuote;
    hide AcceptedAreConverted;
    hide OutboxEvolves, ExchangeEvolves, QuotesEvolve, QuoteOk;
    var s, t := After(maxRetries, steps), After(maxRetries, steps + more);
    ReachableState(maxRetries, steps + more);
    UnpackState(t);
    RunOnlyMovesForward(maxRetries, steps, more);
    SameTexts(s.db.conversions[first], t.db.conversions[first]);
    assert FromQuote(t.db.conversions[first], t.db.quotes);
    assert QuoteOk(t.db.quotes[quoteId]);
    RetryInState(t.db, key, quoteId, first, Some(t.db.quotes[quoteId]), now, id, event);
  }

  /** The same for a request whose transaction had read the quote before it was taken. */
  lemma OpenRetriesChangeNothing(maxRetries: nat, steps: seq<Step>, tx: Id, first: Id, id: Id, event: Id)
    requires var s := After(maxRetries, steps);
             tx in s.accepting && Converts(s.db.conversions, s.accepting[tx].quoteId, first)
    ensures After(maxRetries, steps + [CommitAccept(tx, id, event)]).db == After(maxRetries, steps).db
  {
    hide After, StateInv, DbInv, LedgerOk, WorkersOk, EventsKept, Accept, SeenOk, RowsInv, RecordsOk, OrdersOk;
    hide ResultsOk, MarkersOk;
    var s := After(maxRetries, steps);
    ReachableState(maxRetries, steps);
    UnpackState(s);
    NextState(maxRetries, steps, CommitAccept(tx, id, event));
    if id !in s.db.conversions && event !in s.db.outbox {
      var a := s.accepting[tx];
      NeverAcceptable(s.db, a.quoteId, a.seen, a.now, first);
      AcceptIsAllOrNothing(maxRetries, steps, tx, id, event);
    }
  }

  lemma NeverAcceptable(db: Db, quoteId: Id, seen: Option<QuoteRow>, now: int, first: Id)
    requires RowsInv(db.quotes, db.conversions, db.outbox) && Converts(db.conversions, quoteId, first)
    ensures !Acceptable(db, quoteId, seen, now)
  {
    hide LifecyclesOk, HaveEvents, OutboxOwned, OnePerQuote, AcceptedAreConverted, QuotesOk;
    assert FromQuote(db.conversions[first], db.quotes);
  }
}
