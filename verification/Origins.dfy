/** Where stored rows come from, over every run: each quote from the request of its user, each conversion from
    the acceptance of its quote. */
module Origins {
  import opened Common
  import opened Decimals
  import opened Moneys
  import opened Wallets
  import opened Conversions
  import opened Pricing
  import opened Tables
  import opened Transactions
  import opened Execution
  import opened Ledger
  import opened Invariants
  import opened AcceptProof
  import opened Protocol
  import opened StateProof
  import opened StepProof
  import opened Guarantees
  import opened Acceptance
  import opened Settlement

  // ----- quotes

  /** What a request does, in any state: under a fresh id, the requester's own quote of the amount that its text
      reads as, if it reads as one, its pair is configured and both amounts fit; and otherwise nothing. */
  lemma RequestAdds(s: State, id: Id, user: Id, text: string, from: Asset, to: Asset, now: int)
    ensures var t := DoRequestQuote(s, id, user, text, from, to, now);
            if && id !in s.db.quotes && Of(text, from).Ok? && from != to
               && var m := Of(text, from).value;
               Quoted(m).units > 0 && Fits(m) && Fits(Quoted(m))
            then
              && id in t.db.quotes
              && var q := t.db.quotes[id];
              && t == s.(db := s.db.(quotes := s.db.quotes[id := q]))
              && q.userId == user && Of(text, from) == Ok(q.source) && q.target == Quoted(q.source)
              && q.target.asset == to && q.createdAt == now && q.expiresAt == now + 20000
              && q.status == Active && q.acceptedAt == None
            else t == s
  {
    hide CreateQuote, FitsColumn, ExactFloor, StoredQuote, Worth, ParseUnits;
    RequestsAreAnswered(user, text, from, to, now);
    RequestIsStoredIff(user, text, from, to, now, s.db.quotes, id);
    if CreateQuote(user, text, from, to, now).Ok?
       && SaveNewQuote(s.db.quotes, id, CreateQuote(user, text, from, to, now).value).Ok? {
      SavedQuoteIsSound(user, text, from, to, now, s.db.quotes, id);
    }
  }

  /** No other step adds a quote. */
  lemma OthersAddNoQuote(s: State, step: Step)
    requires StateInv(s) && !step.RequestQuote?
    ensures Do(s, step).db.quotes.Keys == s.db.quotes.Keys
  {
    hide StateInv, DoFund, DoCommitAccept, DoHandle, DoMarkRow;
    OtherStepsKeepDatabase(s, step);
    match step
    case Fund(user, m) => FundKeepsQuotes(s, user, m);
    case CommitAccept(tx, id, event) => CommitKeepsQuoteIds(s, tx, id, event);
    case Handle(w, now) => HandleKeepsQuotes(s, w, now);
    case MarkRow(event, now) => MarkKeepsQuotes(s, event, now);
    case _ =>
  }

  lemma FundKeepsQuotes(s: State, user: Id, m: Money)
    ensures DoFund(s, user, m).db.quotes == s.db.quotes
  {
    hide UpdateRow, CreateIfMissing;
  }

  lemma MarkKeepsQuotes(s: State, event: Id, now: int)
    ensures DoMarkRow(s, event, now).db.quotes == s.db.quotes
  {
  }

  lemma HandleKeepsQuotes(s: State, w: Id, now: int)
    ensures DoHandle(s, w, now).db.quotes == s.db.quotes
  {
    hide HandlerStep;
    if w in s.workers {
      var x := s.workers[w];
      HandlerLeavesTables(s.db, x.message.payload, x.pc, ModeFor(s, x.message.payload.eventId), now);
    }
  }

  lemma CommitKeepsQuoteIds(s: State, tx: Id, id: Id, event: Id)
    requires StateInv(s)
    ensures DoCommitAccept(s, tx, id, event).db.quotes.Keys == s.db.quotes.Keys
  {
    hide StateInv, DbInv, TablesInv, WorkersOk, EventsKept, LedgerOk, SeenOk, Accept, BodyOf, PayloadOf, UpdateRow;
    hide RowsInv, RecordsOk, OrdersOk, ResultsOk, MarkersOk, FromQuotes;
    if tx in s.accepting && id !in s.db.conversions && event !in s.db.outbox {
      var a := s.accepting[tx];
      UnpackState(s);
      RowsFromQuotes(s.db);
      AcceptCommitsAllOrNothing(s.db, s.funded, a.key, a.quoteId, a.seen, a.now, id, event);
    }
  }

  lemma RowsFromQuotes(db: Db)
    requires RowsInv(db.quotes, db.conversions, db.outbox)
    ensures FromQuotes(db.conversions, db.quotes)
  {
  }

  /** Every stored quote comes from the step that first requested its id: it belongs to the user of that step,
      sells the amount that the text of that step reads as, for the exact product rounded down, and lives for
      twenty seconds from the time of that step. */
  lemma {:induction false} QuotesAreRequested(maxRetries: nat, steps: seq<Step>, id: Id) returns (i: nat)
    requires id in After(maxRetries, steps).db.quotes
    ensures i < |steps| && id !in After(maxRetries, steps[..i]).db.quotes
    ensures var q := After(maxRetries, steps).db.quotes[id];
            && steps[i].RequestQuote? && steps[i].id == id && steps[i].user == q.userId && steps[i].now == q.createdAt
            && Of(steps[i].text, steps[i].from) == Ok(q.source) && steps[i].to == q.target.asset
            && q.target == Quoted(q.source) && q.expiresAt == q.createdAt + 20000
            && (q.status == Active ==> q.acceptedAt == None)
  {
    hide Run, Do, StateInv, Of, Quoted, DoRequestQuote;
    if steps == [] {
      NothingQuoted(maxRetries);
      assert false;
    } else {
      var k := |steps| - 1;
      var s, step := After(maxRetries, steps[..k]), steps[k];
      assert steps[..k] + [step] == steps;
      ReachableState(maxRetries, steps[..k]);
      NextState(maxRetries, steps[..k], step);
      if id in s.db.quotes {
        i := QuotesAreRequested(maxRetries, steps[..k], id);
        assert steps[..k][..i] == steps[..i];
        StillThatQuote(s, step, id);
      } else {
        i := k;
        if step.RequestQuote? {
          RequestIs(s, step);
          RequestAdds(s, step.id, step.user, step.text, step.from, step.to, step.now);
        } else {
          OthersAddNoQuote(s, step);
          assert false;
        }
      }
    }
  }

  lemma NothingQuoted(maxRetries: nat)
    ensures After(maxRetries, []).db.quotes == map[]
  {
  }

  lemma RequestIs(s: State, step: Step)
    requires step.RequestQuote?
    ensures Do(s, step) == DoRequestQuote(s, step.id, step.user, step.text, step.from, step.to, step.now)
  {
    hide DoRequestQuote;
  }

  lemma StillThatQuote(s: State, step: Step, id: Id)
    requires StateInv(s) && id in s.db.quotes
    ensures var t := Do(s, step);
            && id in t.db.quotes
            && t.db.quotes[id] == s.db.quotes[id].(status := t.db.quotes[id].status,
                                                   acceptedAt := t.db.quotes[id].acceptedAt)
            && (t.db.quotes[id].status == Active ==> t.db.quotes[id].acceptedAt == None)
  {
    hide StateInv, Do, ConversionsEvolve, OutboxEvolves, ExchangeEvolves, DbInv, LedgerOk, WorkersOk, AcceptingOk;
    hide EventsKept, RecordsOk, OrdersOk, ResultsOk, MarkersOk, Worth, FitsColumn, FromQuotes, HaveEvents;
    hide OnePerQuote, AcceptedAreConverted, OutboxOwned, LifecyclesOk;
    StepEvolves(s, step);
    StepKeepsInvariant(s, step);
    UnpackState(Do(s, step));
    assert QuoteOk(Do(s, step).db.quotes[id]);
  }

  // ----- conversions

  /** Only BeginAccept opens a transaction, and none changes while it is open. */
  lemma OthersOpenNone(s: State, step: Step, tx: Id)
    requires tx in Do(s, step).accepting && (step.BeginAccept? ==> tx in s.accepting)
    ensures tx in s.accepting && Do(s, step).accepting[tx] == s.accepting[tx]
  {
    hide CreateQuote, SaveNewQuote, Accept, UpdateRow, CreateIfMissing, HandlerStep, ModeFor, InHandler, MayRepublish;
    hide Requeued;
  }

  /** An open transaction comes from the step that began it, and has seen the quote as it was then. */
  lemma {:induction false} OpenRequestsAreBegun(maxRetries: nat, steps: seq<Step>, tx: Id) returns (i: nat)
    requires tx in After(maxRetries, steps).accepting
    ensures i < |steps|
    ensures var a := After(maxRetries, steps).accepting[tx];
            var quotes := After(maxRetries, steps[..i]).db.quotes;
            && steps[i] == BeginAccept(tx, a.key, a.quoteId, a.now)
            && a.seen == if a.quoteId in quotes then Some(quotes[a.quoteId]) else None
  {
    hide Run, Do, DoBeginAccept;
    if steps == [] {
      NothingOpen(maxRetries);
      assert false;
    } else {
      var k := |steps| - 1;
      var s, step := After(maxRetries, steps[..k]), steps[k];
      assert steps[..k] + [step] == steps;
      NextState(maxRetries, steps[..k], step);
      if tx in s.accepting || !step.BeginAccept? {
        OthersOpenNone(s, step, tx);
        i := OpenRequestsAreBegun(maxRetries, steps[..k], tx);
        assert steps[..k][..i] == steps[..i];
      } else {
        i := k;
        BeginOpens(s, step, tx);
      }
    }
  }

  lemma NothingOpen(maxRetries: nat)
    ensures After(maxRetries, []).accepting == map[]
  {
  }

  lemma BeginOpens(s: State, step: Step, tx: Id)
    requires step.BeginAccept? && tx !in s.accepting && tx in Do(s, step).accepting
    ensures var a := Do(s, step).accepting[tx];
            && step == BeginAccept(tx, a.key, a.quoteId, a.now)
            && a.seen == if a.quoteId in s.db.quotes then Some(s.db.quotes[a.quoteId]) else None
  {
  }

  /** The row a commit adds has the terms of the quote its transaction saw, in time. */
  predicate AcceptedAs(c: ConversionRow, a: Accepting, event: Id) {
    && a.seen.Some? && c.quoteId == a.quoteId && c.createdAt == a.now && c.eventId == Some(event)
    && a.seen.value.status == Active && a.now <= a.seen.value.expiresAt
    && c.userId == a.seen.value.userId && c.source == a.seen.value.source && c.target == a.seen.value.target
  }

  lemma CommitAdds(s: State, step: Step, id: Id)
    requires StateInv(s) && id !in s.db.conversions && id in Do(s, step).db.conversions
    ensures step.CommitAccept? && step.id == id && step.tx in s.accepting
    ensures AcceptedAs(Do(s, step).db.conversions[id], s.accepting[step.tx], step.event)
  {
    hide StateInv, DoFund, DoCommitAccept, DoHandle, DoBeginAccept, DoPublishRow, DoDeliver, DoRequestQuote, DoMarkRow;
    hide DoHandlerThrows, DoRepublishCopy, DoAck, DoNack, DoLoseChannel, DoCrash, Without, AcceptedAs;
    match step
    case Fund(user, m) => FundKeepsRows(s, user, m); assert false;
    case CommitAccept(tx, created, event) => CommitAddsAccepted(s, tx, created, event, id);
    case Handle(w, now) => HandleAddsNone(s, w, now, id); assert false;
    case _ => OtherStepsMoveNothing(s, step); assert false;
  }

  lemma CommitAddsAccepted(s: State, tx: Id, created: Id, event: Id, id: Id)
    requires StateInv(s) && id !in s.db.conversions && id in DoCommitAccept(s, tx, created, event).db.conversions
    ensures created == id && tx in s.accepting
    ensures AcceptedAs(DoCommitAccept(s, tx, created, event).db.conversions[id], s.accepting[tx], event)
  {
    hide StateInv, DbInv, TablesInv, WorkersOk, EventsKept, LedgerOk, Accept, BodyOf, PayloadOf, UpdateRow, Worth;
    hide RowsInv, RecordsOk, OrdersOk, ResultsOk, MarkersOk, FromQuotes, FitsColumn;
    UnpackState(s);
    RowsFromQuotes(s.db);
    var a := s.accepting[tx];
    AcceptCommitsAllOrNothing(s.db, s.funded, a.key, a.quoteId, a.seen, a.now, created, event);
  }

  lemma {:induction false} ConversionsAreCommitted(maxRetries: nat, steps: seq<Step>, id: Id) returns (k: nat)
    requires id in After(maxRetries, steps).db.conversions
    ensures k < |steps| && steps[k].CommitAccept? && steps[k].id == id
    ensures steps[k].tx in After(maxRetries, steps[..k]).accepting
    ensures AcceptedAs(After(maxRetries, steps).db.conversions[id],
                       After(maxRetries, steps[..k]).accepting[steps[k].tx], steps[k].event)
  {
    hide Run, Do, StateInv;
    if steps == [] {
      NothingAtStart(maxRetries);
      assert false;
    } else {
      var n := |steps| - 1;
      var s, step := After(maxRetries, steps[..n]), steps[n];
      assert steps[..n] + [step] == steps;
      ReachableState(maxRetries, steps[..n]);
      NextState(maxRetries, steps[..n], step);
      if id in s.db.conversions {
        k := ConversionsAreCommitted(maxRetries, steps[..n], id);
        assert steps[..n][..k] == steps[..k];
        StillThatConversion(s, step, id);
      } else {
        k := n;
        CommitAdds(s, step, id);
      }
    }
  }

  lemma StillThatConversion(s: State, step: Step, id: Id)
    requires StateInv(s) && id in s.db.conversions
    ensures id in Do(s, step).db.conversions && SameIdentity(s.db.conversions[id], Do(s, step).db.conversions[id])
  {
    hide StateInv, Do, QuotesEvolve, OutboxEvolves, ExchangeEvolves;
    StepEvolves(s, step);
  }

  /** Every conversion comes from three steps in this order: its own user's request for a quote of just its source
      amount, a request to accept that quote within its twenty seconds, at the conversion's creation time, and the
      commit of that request, which also bound the event. */
  lemma ConversionsAreAccepted(maxRetries: nat, steps: seq<Step>, id: Id) returns (r: nat, b: nat, k: nat)
    requires id in After(maxRetries, steps).db.conversions
    ensures r < b < k < |steps|
    ensures var c := After(maxRetries, steps).db.conversions[id];
            && steps[r].RequestQuote? && steps[r].id == c.quoteId && steps[r].user == c.userId
            && Of(steps[r].text, steps[r].from) == Ok(c.source) && steps[r].to == c.target.asset
            && c.target == Quoted(c.source)
            && steps[b].BeginAccept? && steps[b].quoteId == c.quoteId && steps[b].now == c.createdAt
            && c.createdAt <= steps[r].now + 20000
            && c.eventId.Some? && steps[k] == CommitAccept(steps[b].tx, id, c.eventId.value)
  {
    hide After, Of, Quoted;
    k := ConversionsAreCommitted(maxRetries, steps, id);
    b := OpenRequestsAreBegun(maxRetries, steps[..k], steps[k].tx);
    assert steps[..k][..b] == steps[..b];
    r := QuotesAreRequested(maxRetries, steps[..b], steps[b].quoteId);
    assert steps[..b][r] == steps[r];
  }
}
