/**
  What every run of the system guarantees. `steps` is any finite sequence of steps from the empty
  database: any number of users, quotes, workers, duplicate and foreign messages, crashes, lost
  confirmations, lost markers, cleanups and exchange mode changes, in any order.
*/
module Guarantees {
  import opened Common
  import opened Moneys
  import opened Wallets
  import opened Conversions
  import opened Pricing
  import opened Tables
  import opened Transactions
  import opened Execution
  import opened Ledger
  import opened Invariants
  import opened AcceptProof
  import opened DatabaseProof
  import opened WorkerProof
  import opened Protocol
  import opened StateProof
  import opened StepProof

  function After(maxRetries: nat, steps: seq<Step>): State {
    Run(Start(maxRetries), steps)
  }

  lemma ReachableState(maxRetries: nat, steps: seq<Step>)
    ensures StateInv(After(maxRetries, steps))
  {
    hide Run, Start, StateInv;
    ReachableInvariant(maxRetries, steps);
  }

  lemma NextState(maxRetries: nat, steps: seq<Step>, step: Step)
    ensures After(maxRetries, steps + [step]) == Do(After(maxRetries, steps), step)
  {
    hide Do;
    assert (steps + [step])[..|steps + [step]| - 1] == steps;
  }

  /** The parts of the invariant of a state. */
  lemma UnpackState(s: State)
    requires StateInv(s)
    ensures DbInv(s.db, s.funded) && WorkersOk(s.db, s.workers) && AcceptingOk(s.db, s.accepting) && EventsKept(s)
    ensures TablesInv(s.db) && LedgerOk(s.db.wallets, s.db.conversions, s.funded)
    ensures RowsInv(s.db.quotes, s.db.conversions, s.db.outbox) && RecordsOk(s.db.records, s.db.conversions)
    ensures OrdersOk(s.db.exchange, s.db.outbox, s.db.conversions) && ResultsOk(s.db.conversions, s.db.exchange)
    ensures MarkersOk(s.db.markers, s.db.outbox, s.db.conversions)
  {
    hide LedgerOk, RowsInv, RecordsOk, OrdersOk, ResultsOk, MarkersOk, WorkersOk, AcceptingOk, EventsKept, ConfirmedOk;
  }

  // ----- ledger

  /** For every user and asset: reserved is what the unsettled conversions hold, the balance is what was
      funded plus what completed conversions brought in minus what they took out, and the rest is
      available and never negative. */
  lemma LedgerConservation(maxRetries: nat, steps: seq<Step>, user: Id, asset: Asset)
    ensures var s := After(maxRetries, steps);
            var k := WalletKey(user, asset);
            var r := Row(s.db.wallets, k);
            && r.reserved == Total(Held, k, s.db.conversions)
            && r.balance == FundedOf(s.funded, k) + Total(Net, k, s.db.conversions)
            && r.available == r.balance - r.reserved && r.available >= 0 && r.reserved >= 0
            && FitsColumn(r.balance, asset)
  {
    hide After, StateInv, DbInv, TablesInv, LedgerOk, Row, FitsColumn;
    ReachableState(maxRetries, steps);
    var s := After(maxRetries, steps);
    UnpackState(s);
    WalletInBalance(s.db.wallets, s.db.conversions, s.funded, WalletKey(user, asset));
  }

  lemma WalletInBalance(ws: WalletTable, rows: ConversionTable, funded: map<WalletKey, nat>, k: WalletKey)
    requires LedgerOk(ws, rows, funded)
    ensures var r := Row(ws, k);
            && r.reserved == Total(Held, k, rows) && r.balance == FundedOf(funded, k) + Total(Net, k, rows)
            && r.available == r.balance - r.reserved && r.available >= 0 && r.reserved >= 0
            && FitsColumn(r.balance, k.asset)
  {
    hide Row, FitsColumn;
    assert InBalance(ws, rows, funded, k);
  }

  lemma FundIs(s: State, user: Id, m: Money)
    ensures Do(s, Fund(user, m)) == DoFund(s, user, m)
  {
    hide DoFund;
  }

  lemma FundCredits(s: State, user: Id, m: Money, k: WalletKey)
    requires var r := Row(s.db.wallets, WalletKey(user, m.asset));
             r.available == r.balance - r.reserved && r.available >= 0 && r.reserved >= 0
    ensures var t := DoFund(s, user, m);
            var w := WalletKey(user, m.asset);
            var r := Row(s.db.wallets, w);
            if FitsColumn(r.balance + m.units, m.asset) then
              && t == s.(db := s.db.(wallets := t.db.wallets), funded := t.funded)
              && t.db.wallets == s.db.wallets[w := WalletRow(r.balance + m.units, r.available + m.units, r.reserved)]
              && FundedOf(t.funded, k) == FundedOf(s.funded, k) + if k == w then m.units else 0
            else t == s
  {
    hide FitsColumn;
  }

  /** A deposit, in every reachable state: it is credited and counted as funded if the column has room, and otherwise
      does nothing. */
  lemma DepositsAreCredited(maxRetries: nat, steps: seq<Step>, user: Id, m: Money, k: WalletKey)
    ensures var s, t := After(maxRetries, steps), After(maxRetries, steps + [Fund(user, m)]);
            var w := WalletKey(user, m.asset);
            var r := Row(s.db.wallets, w);
            if FitsColumn(r.balance + m.units, m.asset) then
              && t == s.(db := s.db.(wallets := t.db.wallets), funded := t.funded)
              && t.db.wallets == s.db.wallets[w := WalletRow(r.balance + m.units, r.available + m.units, r.reserved)]
              && FundedOf(t.funded, k) == FundedOf(s.funded, k) + if k == w then m.units else 0
            else t == s
  {
    hide *;
    ReachableState(maxRetries, steps);
    var s := After(maxRetries, steps);
    UnpackState(s);
    NextState(maxRetries, steps, Fund(user, m));
    FundIs(s, user, m);
    WalletInBalance(s.db.wallets, s.db.conversions, s.funded, WalletKey(user, m.asset));
    FundCredits(s, user, m, k);
  }

  // ----- evolution

  lemma StepEvolves(s: State, step: Step)
    requires StateInv(s)
    ensures Evolves(s.db, Do(s, step).db)
  {
    hide StateInv, DbInv, Evolves, DoFund, DoRequestQuote, DoCommitAccept, DoMarkRow, DoHandle;
    hide DoBeginAccept, DoPublishRow, DoDeliver, TablesInv, LedgerOk, WorkersOk, AcceptingOk, EventsKept;
    hide RowsInv, RecordsOk, OrdersOk, ResultsOk, MarkersOk, Without;
    UnpackState(s);
    OtherStepsKeepDatabase(s, step);
    EvolvesReflexive(s.db);
    match step
    case Fund(user, m) => FundEvolves(s, user, m);
    case RequestQuote(id, user, text, from, to, now) => QuoteEvolvesForward(s, id, user, text, from, to, now);
    case CommitAccept(tx, id, event) => CommitEvolves(s, tx, id, event);
    case MarkRow(event, now) => MarkEvolves(s, event, now);
    case Handle(w, now) => HandleEvolves(s, w, now);
    case CleanRecords(keys) => RecordCleanupKeepsInvariant(s.db, s.funded, keys);
    case LoseMarker(event) => MarkerLossEvolves(s.db, event);
    case _ =>
  }

  /** Steps that only move messages and workers, or open and abort transactions. */
  predicate TouchesDatabase(step: Step) {
    step.Fund? || step.RequestQuote? || step.CommitAccept? || step.CleanRecords? || step.MarkRow? || step.Handle?
    || step.LoseMarker?
  }

  lemma OtherStepsKeepDatabase(s: State, step: Step)
    ensures !TouchesDatabase(step) ==> Do(s, step).db == s.db
  {
    hide DoFund, DoRequestQuote, DoCommitAccept, DoMarkRow, DoHandle, Requeued, InHandler;
  }

  lemma FundEvolves(s: State, user: Id, m: Money)
    ensures Evolves(s.db, DoFund(s, user, m).db)
  {
    hide UpdateRow;
    EvolvesReflexive(s.db);
  }

  lemma QuoteEvolvesForward(s: State, id: Id, user: Id, text: string, from: Asset, to: Asset, now: int)
    ensures Evolves(s.db, DoRequestQuote(s, id, user, text, from, to, now).db)
  {
    hide CreateQuote, ConversionsEvolve, OutboxEvolves, ExchangeEvolves;
    EvolvesReflexive(s.db);
  }

  lemma CommitEvolves(s: State, tx: Id, id: Id, event: Id)
    requires StateInv(s)
    ensures Evolves(s.db, DoCommitAccept(s, tx, id, event).db)
  {
    hide WorkersOk, EventsKept, DbInv, SeenOk, Accept, Evolves;
    EvolvesReflexive(s.db);
    if tx in s.accepting && id !in s.db.conversions && event !in s.db.outbox {
      var a := s.accepting[tx];
      AcceptKeepsInvariant(s.db, s.funded, a.key, a.quoteId, a.seen, a.now, id, event);
    }
  }

  lemma MarkEvolves(s: State, event: Id, now: int)
    ensures Evolves(s.db, DoMarkRow(s, event, now).db)
  {
    hide ConversionsEvolve, QuotesEvolve, ExchangeEvolves;
    EvolvesReflexive(s.db);
  }

  lemma HandleEvolves(s: State, w: Id, now: int)
    requires DbInv(s.db, s.funded) && WorkersOk(s.db, s.workers)
    ensures Evolves(s.db, DoHandle(s, w, now).db)
  {
    hide DbInv, Evolves, HandlerStep, WorkerOk;
    EvolvesReflexive(s.db);
    if w in s.workers && InHandler(s.workers[w].pc) {
      var x := s.workers[w];
      HandlerKeepsInvariant(s.db, s.funded, x.message.payload, x.pc, ModeFor(s, x.message.payload.eventId), now);
    }
  }

  lemma MarkerLossEvolves(db: Db, event: Id)
    ensures Evolves(db, db.(markers := Without(db.markers, event)))
  {
    EvolvesReflexive(db);
  }

  /** Over any run, from any reachable state: no row of quotes, conversions, outbox or exchange is lost,
      identities are frozen, status ranks never fall, and terminal rows and orders are final. */
  lemma {:induction false} RunOnlyMovesForward(maxRetries: nat, steps: seq<Step>, more: seq<Step>)
    ensures Evolves(After(maxRetries, steps).db, After(maxRetries, steps + more).db)
  {
    hide Run, Do, Evolves, StateInv;
    if more == [] {
      assert steps + more == steps;
      EvolvesReflexive(After(maxRetries, steps).db);
    } else {
      var init := more[..|more| - 1];
      RunOnlyMovesForward(maxRetries, steps, init);
      ReachableState(maxRetries, steps + init);
      StepEvolves(After(maxRetries, steps + init), more[|more| - 1]);
      LastStep(maxRetries, steps, more);
      EvolvesTransitive(After(maxRetries, steps).db, After(maxRetries, steps + init).db, After(maxRetries,
                                                                                               steps + more).db);
    }
  }

  /** The same, column by column: only a conversion's lifecycle columns, a quote's acceptance and an outbox row's
      publication ever change, none goes back, and results are final. */
  lemma RowsOnlyAdvance(maxRetries: nat, steps: seq<Step>, more: seq<Step>, k: Id)
    ensures var a, b := After(maxRetries, steps).db, After(maxRetries, steps + more).db;
            && (k in a.conversions ==>
                  && k in b.conversions
                  && var c, d := a.conversions[k], b.conversions[k];
                  && d.quoteId == c.quoteId && d.userId == c.userId && d.source == c.source && d.target == c.target
                  && d.eventId == c.eventId && d.createdAt == c.createdAt
                  && (c.status in {Completed, Failed, RequiresReconciliation} ==> d == c)
                  && (c.status == ExecutionRequested ==> d.status !in {Created, FundsReserved}))
            && (k in a.quotes ==>
                  && k in b.quotes
                  && var q, r := a.quotes[k], b.quotes[k];
                  && r.userId == q.userId && r.source == q.source && r.target == q.target && r.rate == q.rate
                  && r.createdAt == q.createdAt && r.expiresAt == q.expiresAt && (q.status == Accepted ==> r == q))
            && (k in a.outbox ==> k in b.outbox && b.outbox[k].payload == a.outbox[k].payload)
            && (k in a.exchange ==> k in b.exchange && b.exchange[k] == a.exchange[k])
  {
    hide After;
    RunOnlyMovesForward(maxRetries, steps, more);
  }

  lemma LastStep(maxRetries: nat, steps: seq<Step>, more: seq<Step>)
    requires more != []
    ensures After(maxRetries, steps + more)
         == Do(After(maxRetries, steps + more[..|more| - 1]), more[|more| - 1])
  {
    hide Do;
    assert (steps + more)[..|steps + more| - 1] == steps + more[..|more| - 1];
  }

  /** Every stored conversion satisfies the lifecycle constraint of its table. */
  lemma LifecycleRows(maxRetries: nat, steps: seq<Step>, id: Id)
    requires id in After(maxRetries, steps).db.conversions
    ensures var c := After(maxRetries, steps).db.conversions[id];
            && Lifecycle(c) && c.source.units > 0 && c.target.units > 0 && c.source.asset != c.target.asset
            && c.status != Created && c.eventId.Some?
            && (c.completedAt.Some? <==> c.status in {Completed, Failed})
            && (c.failureReason.Some? <==> c.status in {Failed, RequiresReconciliation})
  {
    hide After, StateInv, DbInv, TablesInv, LedgerOk, WorkersOk, AcceptingOk, EventsKept, Worth, FitsColumn;
    hide RecordsOk, OrdersOk, ResultsOk, MarkersOk, HaveEvents, OnePerQuote, AcceptedAreConverted, OutboxOwned;
    ReachableState(maxRetries, steps);
    var s := After(maxRetries, steps);
    UnpackState(s);
    assert FromQuote(s.db.conversions[id], s.db.quotes);
    assert QuoteOk(s.db.quotes[s.db.conversions[id].quoteId]);
  }
}
