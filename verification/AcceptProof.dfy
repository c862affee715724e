/** The accept transaction: what it does when it commits, when exactly it does, and what it keeps. */
module AcceptProof {
  import opened Common
  import opened Moneys
  import opened Wallets
  import opened Conversions
  import opened Pricing
  import opened Tables
  import opened Transactions
  import opened Ledger
  import opened Invariants

  /** What an open accept transaction read still describes the stored quote. */
  predicate SeenOk(db: Db, quoteId: Id, seen: Option<QuoteRow>) {
    seen.Some? ==> QuoteOk(seen.value) && quoteId in db.quotes && QuoteEvolves(seen.value, db.quotes[quoteId])
  }

  /** The conversion an accepted quote becomes. */
  function AcceptedRow(quoteId: Id, q: QuoteRow, now: int, event: Id): ConversionRow {
    ConversionRow(quoteId, q.userId, q.source, q.target, FundsReserved, Some(event), now, None, None)
  }

  /** All the rows of one committed accept. */
  function AfterAccept(db: Db, key: Id, quoteId: Id, now: int, id: Id, event: Id): Db
    requires quoteId in db.quotes
    requires var q := db.quotes[quoteId];
             UpdateRow(db.wallets, WalletKey(q.userId, q.source.asset), Reserve, q.source.units).Ok?
  {
    var q := db.quotes[quoteId];
    var c := AcceptedRow(quoteId, q, now, event);
    db.(wallets := UpdateRow(db.wallets, WalletKey(q.userId, q.source.asset), Reserve, q.source.units).value,
        quotes := db.quotes[quoteId := q.(status := Accepted, acceptedAt := Some(now))],
        conversions := db.conversions[id := c],
        outbox := db.outbox[event := OutboxRow(PayloadOf(event, id, c), now, None)],
        records := db.records[key := Record(quoteId, Some(Response(201, BodyOf(id, c), id)), now)])
  }

  /** When a claimed request is accepted: the quote was seen active and still is, it has not expired,
      and the source wallet has enough available. */
  predicate Acceptable(db: Db, quoteId: Id, seen: Option<QuoteRow>, now: int) {
    && seen.Some? && seen.value.status == Active
    && quoteId in db.quotes && db.quotes[quoteId].status == Active && now <= db.quotes[quoteId].expiresAt
    && var q := db.quotes[quoteId];
    && WalletKey(q.userId, q.source.asset) in db.wallets
    && db.wallets[WalletKey(q.userId, q.source.asset)].available >= q.source.units
  }

  lemma ReserveSucceedsIff(db: Db, funded: map<WalletKey, nat>, k: WalletKey, units: nat)
    requires LedgerOk(db.wallets, db.conversions, funded)
    ensures UpdateRow(db.wallets, k, Reserve, units).Ok?
       <==> k in db.wallets && db.wallets[k].available >= units
  {
    hide Stored;
    assert InBalance(db.wallets, db.conversions, funded, k);
    if k in db.wallets && db.wallets[k].available >= units {
      MovedIsStored(db.wallets[k], k.asset, Reserve, units);
    }
  }

  lemma ActiveQuoteIsUnused(db: Db, id: Id, quoteId: Id)
    requires FromQuotes(db.conversions, db.quotes) && quoteId in db.quotes && db.quotes[quoteId].status == Active
    ensures QuoteUnused(db.conversions, id, quoteId)
  {
    forall k | k in db.conversions && k != id
      ensures db.conversions[k].quoteId != quoteId
    {
      assert FromQuote(db.conversions[k], db.quotes);
    }
  }

  /** The steps after the conditional quote update, put together. */
  lemma ReserveAndFinish(db: Db, key: Id, quoteId: Id, q: QuoteRow, now: int, id: Id, event: Id)
    requires id !in db.conversions && event !in db.outbox && key in db.records
    requires UpdateRow(db.wallets, WalletKey(q.userId, q.source.asset), Reserve, q.source.units).Ok?
    ensures var c := AcceptedRow(quoteId, q, now, event);
            var created := ConversionRow(quoteId, q.userId, q.source, q.target, Created, None, now, None, None);
            var wallet := WalletKey(q.userId, q.source.asset);
            var answer := Some(Response(201, BodyOf(id, c), id));
            var reserved := ReserveAndBind(db, id, event, created);
            && reserved == Ok(db.(wallets := UpdateRow(db.wallets, wallet, Reserve, q.source.units).value,
                                  conversions := db.conversions[id := c]))
            && Finish(reserved.value, key, now, id, event)
               == Ok((reserved.value.(records := db.records[key := db.records[key].(response := answer)],
                                      outbox := db.outbox[event := OutboxRow(PayloadOf(event, id, c), now, None)]),
                      BodyOf(id, c)))
  {
    hide UpdateRow, ShortText;
    var c := AcceptedRow(quoteId, q, now, event);
    var created := c.(status := Created, eventId := None);
    assert SaveConversion(SaveConversion(db.conversions, id, created), id, c) == db.conversions[id := c];
  }

  /** The transaction after the claim, on a quote that is acceptable. */
  lemma WorkCommits(db: Db, key: Id, quoteId: Id, seen: Option<QuoteRow>, now: int, id: Id, event: Id)
    requires SeenOk(db, quoteId, seen) && Acceptable(db, quoteId, seen, now)
    requires key !in db.records && id !in db.conversions && event !in db.outbox
    requires QuoteUnused(db.conversions, id, quoteId)
    requires var q := db.quotes[quoteId];
             UpdateRow(db.wallets, WalletKey(q.userId, q.source.asset), Reserve, q.source.units).Ok?
    ensures AcceptWork(db.(records := db.records[key := Record(quoteId, None, now)]), key, quoteId, seen, now, id,
                       event)
         == Ok((AfterAccept(db, key, quoteId, now, id, event), BodyOf(id, AcceptedRow(quoteId, db.quotes[quoteId],
                                                                                      now, event))))
  {
    hide UpdateRow, ReserveAndBind, Finish, PayloadOf, BodyOf, Worth, FitsColumn, QuoteUnused;
    var claimed := db.(records := db.records[key := Record(quoteId, None, now)]);
    var q := db.quotes[quoteId];
    var quotes := db.quotes[quoteId := q.(status := Accepted, acceptedAt := Some(now))];
    assert SaveAccepted(db.quotes, quoteId, now, now) == Some(quotes);
    ReserveAndFinish(claimed.(quotes := quotes), key, quoteId, q, now, id, event);
    var answer := Response(201, BodyOf(id, AcceptedRow(quoteId, q, now, event)), id);
    assert claimed.records[key := claimed.records[key].(response := Some(answer))]
        == db.records[key := Record(quoteId, Some(answer), now)];
  }

  /** And on one that is not: the first check that fails gives the error, and it is never an internal one. */
  lemma WorkAborts(db: Db, funded: map<WalletKey, nat>, key: Id, quoteId: Id, seen: Option<QuoteRow>, now: int,
                   id: Id, event: Id)
    requires FromQuotes(db.conversions, db.quotes) && LedgerOk(db.wallets, db.conversions, funded)
    requires SeenOk(db, quoteId, seen) && !Acceptable(db, quoteId, seen, now)
    ensures AcceptWork(db, key, quoteId, seen, now, id, event)
         == Err(if seen.None? then QuoteNotFound
                else if seen.value.status == Accepted then QuoteAlreadyAcceptedError
                else if now > seen.value.expiresAt then QuoteExpiredError
                else if db.quotes[quoteId].status != Active then QuoteAcceptConflict
                else InsufficientAvailableBalance)
  {
    hide UpdateRow, ReserveAndBind, Finish, Worth, FitsColumn, QuoteUnused, LedgerOk, FromQuotes;
    if seen.Some? && seen.value.status == Active && db.quotes[quoteId].status == Active
       && now <= db.quotes[quoteId].expiresAt
    {
      var q := db.quotes[quoteId];
      var moved := db.(quotes := db.quotes[quoteId := q.(status := Accepted, acceptedAt := Some(now))]);
      var created := ConversionRow(quoteId, q.userId, q.source, q.target, Created, None, now, None, None);
      ActiveQuoteIsUnused(db, id, quoteId);
      NoFundsNoReserve(moved, id, event, created);
    }
  }

  lemma NoFundsNoReserve(db: Db, id: Id, event: Id, created: ConversionRow)
    requires var k := WalletKey(created.userId, created.source.asset);
             k !in db.wallets || db.wallets[k].available < created.source.units
    ensures ReserveAndBind(db, id, event, created) == Err(InsufficientAvailableBalance)
  {
  }

  /** A claimed request commits exactly when it is acceptable, with all its rows at once; otherwise nothing at
      all has changed, and the error names the first check that failed. */
  lemma AcceptCommitsAllOrNothing(db: Db, funded: map<WalletKey, nat>, key: Id, quoteId: Id,
                                  seen: Option<QuoteRow>, now: int, id: Id, event: Id)
    requires FromQuotes(db.conversions, db.quotes) && LedgerOk(db.wallets, db.conversions, funded)
    requires SeenOk(db, quoteId, seen)
    requires key !in db.records && id !in db.conversions && event !in db.outbox
    ensures var (after, result) := Accept(db, key, quoteId, seen, now, id, event);
            if Acceptable(db, quoteId, seen, now) then
              var q := db.quotes[quoteId];
              && UpdateRow(db.wallets, WalletKey(q.userId, q.source.asset), Reserve, q.source.units).Ok?
              && after == AfterAccept(db, key, quoteId, now, id, event)
              && result == Answered(201, BodyOf(id, AcceptedRow(quoteId, q, now, event)), false)
            else
              && after == db
              && result == Rejected(if seen.None? then QuoteNotFound
                                    else if seen.value.status == Accepted then QuoteAlreadyAcceptedError
                                    else if now > seen.value.expiresAt then QuoteExpiredError
                                    else if db.quotes[quoteId].status != Active then QuoteAcceptConflict
                                    else InsufficientAvailableBalance)
  {
    hide UpdateRow, AcceptWork, QuoteUnused, AfterAccept, SeenOk, FromQuotes, LedgerOk, BodyOf;
    var claimed := db.(records := db.records[key := Record(quoteId, None, now)]);
    if Acceptable(db, quoteId, seen, now) {
      var q := db.quotes[quoteId];
      ReserveSucceedsIff(db, funded, WalletKey(q.userId, q.source.asset), q.source.units);
      ActiveQuoteIsUnused(db, id, quoteId);
      WorkCommits(db, key, quoteId, seen, now, id, event);
    } else {
      SameQuotes(db, claimed, quoteId, seen);
      WorkAborts(claimed, funded, key, quoteId, seen, now, id, event);
    }
  }

  lemma SameQuotes(db: Db, claimed: Db, quoteId: Id, seen: Option<QuoteRow>)
    requires SeenOk(db, quoteId, seen) && claimed == db.(records := claimed.records)
    ensures SeenOk(claimed, quoteId, seen)
  {
  }
}
