/** Exchange, workers, markers and conversions agree on the outcome of an event, over every run. */
module Agreement {
  import opened Common
  import opened Decimals
  import opened Moneys
  import opened Wallets
  import opened Conversions
  import opened Tables
  import opened Transactions
  import opened Execution
  import opened Ledger
  import opened Invariants
  import opened WorkerProof
  import opened Protocol
  import opened StateProof
  import opened StepProof
  import opened Guarantees
  import Outcomes

  /** In every reachable state: a conversion that is terminal has the outcome of its exchange order, a
      marker of its event records that outcome, and so does every worker that has read it back, whatever
      the exchange's mode was at any time. */
  lemma OutcomesAgree(maxRetries: nat, steps: seq<Step>, id: Id, w: Id)
    requires id in After(maxRetries, steps).db.conversions
    ensures var s := After(maxRetries, steps);
            var c := s.db.conversions[id];
            && c.eventId.Some?
            && var e := c.eventId.value;
            && (Terminal(c.status) ==> e in s.db.exchange && s.db.exchange[e].outcome == OutcomeOf(c.status))
            && (e in s.db.markers ==> Terminal(c.status) && s.db.markers[e] == Marker(id, OutcomeOf(c.status)))
            && (w in s.workers && s.workers[w].message.payload.eventId == e && s.workers[w].pc.Executed? ==>
                  e in s.db.exchange && s.workers[w].pc.outcome == s.db.exchange[e].outcome)
            && (w in s.workers && s.workers[w].message.payload.eventId == e && s.workers[w].pc.Repairing? ==>
                  e in s.db.exchange && s.workers[w].pc.seen == s.db.exchange[e].outcome)
  {
    hide After, StateInv, DbInv, TablesInv, AcceptingOk, PayloadOf, PayloadMatches, LedgerOk, EventsKept, WorkersOk;
    hide RecordsOk, OrdersOk, LifecyclesOk, FromQuotes, OnePerQuote, QuotesOk, AcceptedAreConverted, OutboxOwned;
    ReachableState(maxRetries, steps);
    var s := After(maxRetries, steps);
    UnpackState(s);
    assert HasEvent(id, s.db.conversions[id], s.db.outbox);
    var e := s.db.conversions[id].eventId.value;
    assert ResultOk(s.db.conversions[id], s.db.exchange);
    PayloadNames(e, id, s.db.conversions[id]);
    if e in s.db.markers {
      assert MarkerOk(e, s.db.markers[e], s.db.outbox, s.db.conversions);
    }
    if w in s.workers && s.workers[w].message.payload.eventId == e {
      KnownWorker(s, w);
      var p := s.workers[w].message.payload;
      if Genuine(s.db.conversions, p) {
        BoundOnce(s.db.outbox, s.db.conversions, e, id, p.conversionId);
      }
    }
  }

  /** Two workers that read a result of one event, at any two times of a run, read the same one. */
  lemma ReadsAgree(maxRetries: nat, steps: seq<Step>, more: seq<Step>, v: Id, w: Id)
    requires var s, t := After(maxRetries, steps), After(maxRetries, steps + more);
             && v in s.workers && s.workers[v].pc.Executed? && w in t.workers && t.workers[w].pc.Executed?
             && s.workers[v].message.payload.eventId == t.workers[w].message.payload.eventId
    ensures After(maxRetries, steps).workers[v].pc == After(maxRetries, steps + more).workers[w].pc
  {
    hide After, StateInv, PayloadMatches, Genuine, ConversionsEvolve, OutboxEvolves, QuotesEvolve;
    var s, t := After(maxRetries, steps), After(maxRetries, steps + more);
    ReachableState(maxRetries, steps);
    ReachableState(maxRetries, steps + more);
    RunOnlyMovesForward(maxRetries, steps, more);
    KnownWorker(s, v);
    KnownWorker(t, w);
  }

  /** No handler ever fails because the exchange refuses its command, or because of a conflicting result,
      a missing conversion or a missed wallet guard: the only refusal a settlement can meet is a target
      balance that does not fit its column. */
  lemma ConflictsAreUnreachable(maxRetries: nat, steps: seq<Step>, w: Id)
    requires w in After(maxRetries, steps).workers && After(maxRetries, steps).workers[w].pc.Failing?
    ensures var error := After(maxRetries, steps).workers[w].pc.error;
            error != ExchangeRefused
            && (error.SettlementRefused? ==> error.cause == WalletRefused(ConstraintViolated))
  {
    hide After, StateInv;
    ReachableState(maxRetries, steps);
    KnownWorker(After(maxRetries, steps), w);
  }

  /** A worker about to settle, in any reachable state: its transaction rolls back exactly when the event
      is not claimed yet, the conversion is still EXECUTION_REQUESTED, the outcome is SUCCESS and the
      credited target balance would outgrow NUMERIC(38,18). */
  lemma SettlementIsRefusedIff(maxRetries: nat, steps: seq<Step>, w: Id, now: int)
    requires w in After(maxRetries, steps).workers && After(maxRetries, steps).workers[w].pc.Executed?
    ensures var s := After(maxRetries, steps);
            var p, o := s.workers[w].message.payload, s.workers[w].pc.outcome;
            && p.conversionId in s.db.conversions
            && var c := s.db.conversions[p.conversionId];
            Settle(s.db, p, o, s.workers[w].pc.reason, now).RolledBack?
            <==> (p.eventId !in s.db.markers && c.status == ExecutionRequested && o == Success
                  && !RoomForTarget(s.db.wallets, c))
  {
    hide After, StateInv, Settle, RoomForTarget, TablesInv, LedgerOk;
    ReachableState(maxRetries, steps);
    var s := After(maxRetries, steps);
    UnpackState(s);
    KnownWorker(s, w);
    SettleRefusedIff(s.db, s.funded, s.workers[w].message.payload, s.workers[w].pc.outcome, s.workers[w].pc.reason,
                     now);
  }

  lemma SettleRefusedIff(db: Db, funded: map<WalletKey, nat>, p: Payload, o: Outcome, reason: Option<string>, now: int)
    requires DbInv(db, funded) && WorkerOk(db, p, Executed(o, reason))
    ensures p.conversionId in db.conversions
    ensures Settle(db, p, o, reason, now).RolledBack?
       <==> (p.eventId !in db.markers && db.conversions[p.conversionId].status == ExecutionRequested && o == Success
             && !RoomForTarget(db.wallets, db.conversions[p.conversionId]))
  {
    hide RoomForTarget, TablesInv, LedgerOk, MoveFunds, ApplyResult, Lifecycle, Worth, PayloadOf, PayloadMatches;
    hide ResultOk;
    GenuineRow(db, p);
    SettleEffect(db, funded, p, o, reason, now);
    if db.conversions[p.conversionId].status == ExecutionRequested {
      SettlementRefusedOnlyWithoutRoom(db.wallets, db.conversions, funded, p.conversionId, o);
    }
  }

  /** Of a requested conversion in a reachable state: the first decisive result alone decides every sequence,
      and only disagreement throws, if and only if the target column has room. */
  lemma SequencePromisesHoldIff(maxRetries: nat, steps: seq<Step>, id: Id)
    requires id in After(maxRetries, steps).db.conversions
    requires After(maxRetries, steps).db.conversions[id].status == ExecutionRequested
    ensures var db := After(maxRetries, steps).db;
            && Outcomes.Waiting(db, id)
            && (Outcomes.FirstDecisiveDecides(db, id) <==> RoomForTarget(db.wallets, db.conversions[id]))
            && (Outcomes.OnlyDisagreementThrows(db, id) <==> RoomForTarget(db.wallets, db.conversions[id]))
  {
    hide After, StateInv, RoomForTarget, TablesInv, LedgerOk, MoveFunds;
    hide Outcomes.FirstDecisiveDecides, Outcomes.OnlyDisagreementThrows;
    ReachableState(maxRetries, steps);
    var s := After(maxRetries, steps);
    UnpackState(s);
    LifecycleRows(maxRetries, steps, id);
    SettlementRefusedOnlyWithoutRoom(s.db.wallets, s.db.conversions, s.funded, id, Success);
    SettlementRefusedOnlyWithoutRoom(s.db.wallets, s.db.conversions, s.funded, id, Failure);
    Outcomes.PromisesHoldIff(s.db, id);
  }

  /** What is left of the column of the conversion's target balance. */
  function FreeColumn(ws: WalletTable, c: ConversionRow): int {
    Pow10(20 + c.target.asset.Scale()) - 1 - Row(ws, WalletKey(c.userId, c.target.asset)).balance
  }

  /** The refusal is within reach: from every reachable state, one credit from outside that fills the column of
      the target balance leaves no room for the settlement of a given conversion. */
  lemma ADepositCanBlock(maxRetries: nat, steps: seq<Step>, id: Id)
    requires id in After(maxRetries, steps).db.conversions
    ensures var s := After(maxRetries, steps);
            var c := s.db.conversions[id];
            && FreeColumn(s.db.wallets, c) >= 0
            && var deposit := Fund(c.userId, Money(FreeColumn(s.db.wallets, c), c.target.asset));
            !RoomForTarget(After(maxRetries, steps + [deposit]).db.wallets, c)
  {
    hide After, StateInv, DbInv, TablesInv, LedgerOk, Lifecycle, Do, DoFund, FreeColumn, RoomForTarget, Row, FitsColumn;
    var s := After(maxRetries, steps);
    var c := s.db.conversions[id];
    ReachableState(maxRetries, steps);
    UnpackState(s);
    LifecycleRows(maxRetries, steps, id);
    WalletInBalance(s.db.wallets, s.db.conversions, s.funded, WalletKey(c.userId, c.target.asset));
    DepositBlocks(s, c);
    var deposit := Money(FreeColumn(s.db.wallets, c), c.target.asset);
    NextState(maxRetries, steps, Fund(c.userId, deposit));
    FundIs(s, c.userId, deposit);
  }

  lemma DepositBlocks(s: State, c: ConversionRow)
    requires var r := Row(s.db.wallets, WalletKey(c.userId, c.target.asset));
             && r.available == r.balance - r.reserved && r.available >= 0 && r.reserved >= 0
             && FitsColumn(r.balance, c.target.asset)
    requires c.target.units > 0
    ensures var free := FreeColumn(s.db.wallets, c);
            free >= 0 && !RoomForTarget(DoFund(s, c.userId, Money(free, c.target.asset)).db.wallets, c)
  {
    hide Pow10, Row, UpdateRow, CreateIfMissing;
    FillingUp(s.db.wallets, WalletKey(c.userId, c.target.asset), FreeColumn(s.db.wallets, c));
  }

  lemma FillingUp(ws: WalletTable, k: WalletKey, units: nat)
    requires Row(ws, k).available == Row(ws, k).balance - Row(ws, k).reserved && Row(ws, k).available >= 0
    requires Row(ws, k).reserved >= 0 && Row(ws, k).balance + units < Pow10(20 + k.asset.Scale())
    ensures var r := UpdateRow(CreateIfMissing(ws, k), k, Credit, units);
            r.Ok? && Row(r.value, k).balance == Row(ws, k).balance + units
  {
    hide Pow10;
  }
}
