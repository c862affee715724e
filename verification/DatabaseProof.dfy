/** Every statement that changes the database keeps its invariant and lets it evolve only forwards. */
module DatabaseProof {
  import opened Common
  import opened Moneys
  import opened Wallets
  import opened Conversions
  import opened Pricing
  import opened Tables
  import opened Transactions
  import opened Ledger
  import opened Invariants
  import opened AcceptProof

  // ----- a new conversion, from an active quote, with its event

  /** An active quote is accepted at `now` and becomes conversion `id` with event `event`. */
  predicate NewConversion(quotes: QuoteTable, rows: ConversionTable, outbox: OutboxTable,
                          quoteId: Id, now: int, id: Id, event: Id) {
    && quoteId in quotes && quotes[quoteId].status == Active && id !in rows && event !in outbox
  }

  function Converted(quotes: QuoteTable, quoteId: Id, now: int): QuoteTable
    requires quoteId in quotes
  {
    quotes[quoteId := quotes[quoteId].(status := Accepted, acceptedAt := Some(now))]
  }

  lemma NewRowKeepsConversions(quotes: QuoteTable, rows: ConversionTable, outbox: OutboxTable,
                               quoteId: Id, now: int, id: Id, event: Id)
    requires NewConversion(quotes, rows, outbox, quoteId, now, id, event)
    requires LifecyclesOk(rows) && FromQuotes(rows, quotes) && OnePerQuote(rows)
    ensures var c := AcceptedRow(quoteId, quotes[quoteId], now, event);
            && LifecyclesOk(rows[id := c]) && FromQuotes(rows[id := c], Converted(quotes, quoteId, now))
            && OnePerQuote(rows[id := c]) && ConversionsEvolve(rows, rows[id := c])
  {
    forall k | k in rows ensures rows[k].quoteId != quoteId {
      assert FromQuote(rows[k], quotes);
    }
  }

  lemma NewRowKeepsQuotes(quotes: QuoteTable, rows: ConversionTable, outbox: OutboxTable,
                          quoteId: Id, now: int, id: Id, event: Id)
    requires NewConversion(quotes, rows, outbox, quoteId, now, id, event)
    requires QuotesOk(quotes) && AcceptedAreConverted(quotes, rows)
    ensures var c := AcceptedRow(quoteId, quotes[quoteId], now, event);
            && QuotesOk(Converted(quotes, quoteId, now)) && QuotesEvolve(quotes, Converted(quotes, quoteId, now))
            && AcceptedAreConverted(Converted(quotes, quoteId, now), rows[id := c])
  {
    hide Worth, FitsColumn;
    var quotes' := Converted(quotes, quoteId, now);
    var rows' := rows[id := AcceptedRow(quoteId, quotes[quoteId], now, event)];
    assert QuoteOk(quotes[quoteId]);
    forall q | q in quotes' && quotes'[q].status == Accepted ensures HasConversion(rows', q) {
      if q == quoteId {
        assert rows'[id].quoteId == q;
      } else {
        assert HasConversion(rows, q);
        var k :| k in rows && rows[k].quoteId == q;
        assert rows'[k].quoteId == q;
      }
    }
  }

  lemma NewRowKeepsEvents(quotes: QuoteTable, rows: ConversionTable, outbox: OutboxTable,
                          quoteId: Id, now: int, id: Id, event: Id)
    requires NewConversion(quotes, rows, outbox, quoteId, now, id, event)
    requires HaveEvents(rows, outbox) && OutboxOwned(outbox, rows)
    ensures var c := AcceptedRow(quoteId, quotes[quoteId], now, event);
            var outbox' := outbox[event := OutboxRow(PayloadOf(event, id, c), now, None)];
            && HaveEvents(rows[id := c], outbox') && OutboxOwned(outbox', rows[id := c])
            && OutboxEvolves(outbox, outbox')
  {
    hide PayloadOf;
    var c := AcceptedRow(quoteId, quotes[quoteId], now, event);
    PayloadNames(event, id, c);
    forall k | k in rows ensures HasEvent(k, rows[k], outbox[event := OutboxRow(PayloadOf(event, id, c), now, None)]) {
      assert HasEvent(k, rows[k], outbox);
    }
    forall e | e in outbox ensures Owned(outbox[event := OutboxRow(PayloadOf(event, id, c), now, None)],
                                         rows[id := c], e) {
      assert Owned(outbox, rows, e);
    }
  }

  /** Adding a conversion that is not terminal disturbs no record, order, result or marker. */
  lemma NewRowKeepsDescriptions(db: Db, outbox: OutboxTable, id: Id, c: ConversionRow)
    requires TablesInv(db) && OutboxEvolves(db.outbox, outbox)
    requires id !in db.conversions && !Terminal(c.status)
    ensures var rows := db.conversions[id := c];
            && RecordsOk(db.records, rows) && OrdersOk(db.exchange, outbox, rows)
            && ResultsOk(rows, db.exchange) && MarkersOk(db.markers, outbox, rows)
  {
    hide RowsInv, BodyOf, SameCommand;
    var rows := db.conversions[id := c];
    forall k | k in db.records ensures RecordOk(db.records[k], rows) {
      assert RecordOk(db.records[k], db.conversions);
    }
    forall e | e in db.exchange ensures OrderOk(e, db.exchange[e], outbox, rows) {
      assert OrderOk(e, db.exchange[e], db.outbox, db.conversions);
    }
    forall e | e in db.markers ensures MarkerOk(e, db.markers[e], outbox, rows) {
      assert MarkerOk(e, db.markers[e], db.outbox, db.conversions);
    }
  }

  lemma NewRecordOk(records: RecordTable, rows: ConversionTable, key: Id, id: Id, now: int)
    requires RecordsOk(records, rows) && id in rows
    ensures RecordsOk(records[key := Record(rows[id].quoteId, Some(Response(201, BodyOf(id, rows[id]), id)), now)],
                      rows)
  {
    hide BodyOf;
  }

  lemma AcceptedKeepsInvariant(db: Db, funded: map<WalletKey, nat>, key: Id, quoteId: Id, now: int, id: Id, event: Id)
    requires DbInv(db, funded)
    requires NewConversion(db.quotes, db.conversions, db.outbox, quoteId, now, id, event)
    requires var q := db.quotes[quoteId];
             UpdateRow(db.wallets, WalletKey(q.userId, q.source.asset), Reserve, q.source.units).Ok?
    ensures var after := AfterAccept(db, key, quoteId, now, id, event); DbInv(after, funded) && Evolves(db, after)
  {
    hide UpdateRow, LedgerOk, PayloadOf, BodyOf;
    hide QuotesOk, LifecyclesOk, FromQuotes, HaveEvents, OnePerQuote, AcceptedAreConverted, OutboxOwned;
    hide RecordsOk, OrdersOk, ResultsOk, MarkersOk, QuotesEvolve, ConversionsEvolve, OutboxEvolves;
    var c := AcceptedRow(quoteId, db.quotes[quoteId], now, event);
    NewRowKeepsConversions(db.quotes, db.conversions, db.outbox, quoteId, now, id, event);
    NewRowKeepsQuotes(db.quotes, db.conversions, db.outbox, quoteId, now, id, event);
    NewRowKeepsEvents(db.quotes, db.conversions, db.outbox, quoteId, now, id, event);
    NewRowKeepsDescriptions(db, db.outbox[event := OutboxRow(PayloadOf(event, id, c), now, None)], id, c);
    NewRecordOk(db.records, db.conversions[id := c], key, id, now);
    ReserveKeepsLedger(db.wallets, db.conversions, funded, id, c);
    EvolvesReflexive(db);
  }

  /** An accept transaction, committed or not, keeps the whole database invariant. */
  lemma AcceptKeepsInvariant(db: Db, funded: map<WalletKey, nat>, key: Id, quoteId: Id, seen: Option<QuoteRow>,
                             now: int, id: Id, event: Id)
    requires DbInv(db, funded) && SeenOk(db, quoteId, seen)
    requires key !in db.records && id !in db.conversions && event !in db.outbox
    ensures var after := Accept(db, key, quoteId, seen, now, id, event).0;
            DbInv(after, funded) && Evolves(db, after)
  {
    hide Accept, AfterAccept, LedgerOk, UpdateRow, SeenOk;
    hide QuotesOk, LifecyclesOk, FromQuotes, HaveEvents, OnePerQuote, AcceptedAreConverted, OutboxOwned;
    hide RecordsOk, OrdersOk, ResultsOk, MarkersOk;
    AcceptCommitsAllOrNothing(db, funded, key, quoteId, seen, now, id, event);
    EvolvesReflexive(db);
    if Acceptable(db, quoteId, seen, now) {
      AcceptedKeepsInvariant(db, funded, key, quoteId, now, id, event);
    }
  }

  // ----- one conversion moves on

  lemma MoveKeepsEvents(rows: ConversionTable, outbox: OutboxTable, id: Id, c: ConversionRow)
    requires HaveEvents(rows, outbox) && OutboxOwned(outbox, rows) && id in rows && SameIdentity(rows[id], c)
    ensures HaveEvents(rows[id := c], outbox) && OutboxOwned(outbox, rows[id := c])
  {
    hide PayloadOf, BodyOf, PayloadMatches;
    SameTexts(rows[id], c);
    forall k | k in rows ensures HasEvent(k, rows[id := c][k], outbox) {
      assert HasEvent(k, rows[k], outbox);
    }
    forall e | e in outbox ensures Owned(outbox, rows[id := c], e) {
      assert Owned(outbox, rows, e);
    }
  }

  lemma MoveKeepsRows(quotes: QuoteTable, rows: ConversionTable, outbox: OutboxTable, id: Id, c: ConversionRow)
    requires RowsInv(quotes, rows, outbox) && id in rows
    requires SameIdentity(rows[id], c) && Lifecycle(c) && c.status != Created
    ensures RowsInv(quotes, rows[id := c], outbox)
  {
    hide Lifecycle, QuotesOk, HaveEvents, OutboxOwned;
    MoveKeepsEvents(rows, outbox, id, c);
    forall q | q in quotes && quotes[q].status == Accepted ensures HasConversion(rows[id := c], q) {
      assert HasConversion(rows, q);
      var k :| k in rows && rows[k].quoteId == q;
      assert rows[id := c][k].quoteId == q;
    }
  }

  lemma MoveKeepsDescriptions(db: Db, id: Id, c: ConversionRow)
    requires TablesInv(db) && id in db.conversions
    requires ConversionEvolves(db.conversions[id], c) && ResultOk(c, db.exchange)
    ensures var rows := db.conversions[id := c];
            && RecordsOk(db.records, rows) && OrdersOk(db.exchange, db.outbox, rows)
            && ResultsOk(rows, db.exchange) && MarkersOk(db.markers, db.outbox, rows)
            && ConversionsEvolve(db.conversions, rows)
  {
    hide RowsInv, BodyOf, SameCommand, PayloadMatches, PayloadOf;
    var rows := db.conversions[id := c];
    SameTexts(db.conversions[id], c);
    forall k | k in db.records ensures RecordOk(db.records[k], rows) {
      assert RecordOk(db.records[k], db.conversions);
    }
    forall e | e in db.exchange ensures OrderOk(e, db.exchange[e], db.outbox, rows) {
      assert OrderOk(e, db.exchange[e], db.outbox, db.conversions);
    }
    forall e | e in db.markers ensures MarkerOk(e, db.markers[e], db.outbox, rows) {
      assert MarkerOk(e, db.markers[e], db.outbox, db.conversions);
    }
  }

  /** A conversion moves forwards; the wallets move so that the ledger stays right. */
  lemma MoveKeepsInvariant(db: Db, funded: map<WalletKey, nat>, id: Id, c: ConversionRow, wallets: WalletTable)
    requires DbInv(db, funded) && id in db.conversions
    requires ConversionEvolves(db.conversions[id], c) && ResultOk(c, db.exchange)
    requires Lifecycle(c) && c.status != Created
    requires LedgerOk(wallets, db.conversions[id := c], funded)
    ensures var after := db.(conversions := db.conversions[id := c], wallets := wallets);
            DbInv(after, funded) && Evolves(db, after)
  {
    hide LedgerOk, RowsInv, RecordsOk, OrdersOk, ResultsOk, MarkersOk, Lifecycle, ResultOk;
    hide QuotesEvolve, ConversionsEvolve, OutboxEvolves, ExchangeEvolves;
    MoveKeepsRows(db.quotes, db.conversions, db.outbox, id, c);
    MoveKeepsDescriptions(db, id, c);
    EvolvesReflexive(db);
  }

  // ----- statements on one other table

  lemma NewOrderKeepsInvariant(db: Db, funded: map<WalletKey, nat>, event: Id, o: ExchangeRow)
    requires DbInv(db, funded) && event !in db.exchange && OrderOk(event, o, db.outbox, db.conversions)
    ensures var after := db.(exchange := db.exchange[event := o]); DbInv(after, funded) && Evolves(db, after)
  {
    hide LedgerOk, RowsInv, RecordsOk, MarkersOk, OrderOk;
    hide QuotesEvolve, ConversionsEvolve, OutboxEvolves;
    EvolvesReflexive(db);
  }

  lemma MarkersKeepInvariant(db: Db, funded: map<WalletKey, nat>, markers: MarkerTable)
    requires DbInv(db, funded) && MarkersOk(markers, db.outbox, db.conversions)
    ensures var after := db.(markers := markers); DbInv(after, funded) && Evolves(db, after)
  {
    hide LedgerOk, RowsInv, RecordsOk, OrdersOk, ResultsOk, MarkersOk;
    hide QuotesEvolve, ConversionsEvolve, OutboxEvolves, ExchangeEvolves;
    EvolvesReflexive(db);
  }

  lemma NewMarkerOk(db: Db, event: Id, m: Marker)
    requires MarkersOk(db.markers, db.outbox, db.conversions) && MarkerOk(event, m, db.outbox, db.conversions)
    ensures MarkersOk(InsertIfAbsent(db.markers, event, m), db.outbox, db.conversions)
    ensures MarkersOk(db.markers[event := m], db.outbox, db.conversions)
  {
    hide MarkerOk;
  }

  lemma RecordCleanupKeepsInvariant(db: Db, funded: map<WalletKey, nat>, keys: set<Id>)
    requires DbInv(db, funded)
    ensures var after := db.(records := db.records - keys); DbInv(after, funded) && Evolves(db, after)
  {
    hide LedgerOk, RowsInv, OrdersOk, ResultsOk, MarkersOk, RecordOk;
    hide QuotesEvolve, ConversionsEvolve, OutboxEvolves, ExchangeEvolves;
    EvolvesReflexive(db);
  }

  lemma WalletChangeKeepsInvariant(db: Db, funded: map<WalletKey, nat>, wallets: WalletTable,
                                   funded': map<WalletKey, nat>)
    requires DbInv(db, funded) && LedgerOk(wallets, db.conversions, funded')
    ensures var after := db.(wallets := wallets); DbInv(after, funded') && Evolves(db, after)
  {
    hide LedgerOk, RowsInv, RecordsOk, OrdersOk, ResultsOk, MarkersOk;
    hide QuotesEvolve, ConversionsEvolve, OutboxEvolves, ExchangeEvolves;
    EvolvesReflexive(db);
  }

  lemma NewQuoteKeepsInvariant(db: Db, funded: map<WalletKey, nat>, id: Id, q: QuoteRow)
    requires DbInv(db, funded) && id !in db.quotes && QuoteOk(q) && q.status == Active
    ensures var after := db.(quotes := db.quotes[id := q]); DbInv(after, funded) && Evolves(db, after)
  {
    hide LedgerOk, RecordsOk, OrdersOk, ResultsOk, MarkersOk, QuoteOk, LifecyclesOk, HaveEvents, OnePerQuote;
    hide OutboxOwned;
    hide ConversionsEvolve, OutboxEvolves, ExchangeEvolves;
    EvolvesReflexive(db);
    forall k | k in db.conversions ensures FromQuote(db.conversions[k], db.quotes[id := q]) {
      assert FromQuote(db.conversions[k], db.quotes);
    }
    forall k | k in db.quotes[id := q] && db.quotes[id := q][k].status == Accepted
      ensures HasConversion(db.conversions, k)
    {
      assert k in db.quotes;
    }
  }

  lemma MarkPublishedKeepsEvents(rows: ConversionTable, outbox: OutboxTable, event: Id, now: int)
    requires HaveEvents(rows, outbox) && OutboxOwned(outbox, rows) && event in outbox
    ensures var outbox' := outbox[event := outbox[event].(publishedAt := Some(now))];
            HaveEvents(rows, outbox') && OutboxOwned(outbox', rows) && OutboxEvolves(outbox, outbox')
  {
    hide PayloadOf;
    var outbox' := outbox[event := outbox[event].(publishedAt := Some(now))];
    forall k | k in rows ensures HasEvent(k, rows[k], outbox') {
      assert HasEvent(k, rows[k], outbox);
    }
    forall e | e in outbox' ensures Owned(outbox', rows, e) {
      assert Owned(outbox, rows, e);
    }
  }

  lemma MarkPublishedKeepsInvariant(db: Db, funded: map<WalletKey, nat>, event: Id, now: int)
    requires DbInv(db, funded) && event in db.outbox
    ensures var after := db.(outbox := db.outbox[event := db.outbox[event].(publishedAt := Some(now))]);
            DbInv(after, funded) && Evolves(db, after)
  {
    hide LedgerOk, RecordsOk, ResultsOk, SameCommand, LifecyclesOk, FromQuotes, OnePerQuote, QuotesOk;
    hide AcceptedAreConverted;
    hide ConversionsEvolve, QuotesEvolve, ExchangeEvolves, OutboxEvolves, HaveEvents, OutboxOwned;
    EvolvesReflexive(db);
    var outbox := db.outbox[event := db.outbox[event].(publishedAt := Some(now))];
    MarkPublishedKeepsEvents(db.conversions, db.outbox, event, now);
    forall e | e in db.exchange ensures OrderOk(e, db.exchange[e], outbox, db.conversions) {
      assert OrderOk(e, db.exchange[e], db.outbox, db.conversions);
    }
    forall e | e in db.markers ensures MarkerOk(e, db.markers[e], outbox, db.conversions) {
      assert MarkerOk(e, db.markers[e], db.outbox, db.conversions);
    }
  }
}
