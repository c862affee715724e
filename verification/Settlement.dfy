/**
  Exactly-once settlement, over every run: wallets move by deposits, by the holds of new conversions and
  by settlements, and the settlement of a conversion happens in exactly one step.
*/
module Settlement {
  import opened Common
  import opened Moneys
  import opened Wallets
  import opened Conversions
  import opened Pricing
  import opened Tables
  import opened Transactions
  import opened Execution
  import opened Ledger
  import opened Invariants
  import opened AcceptProof
  import opened WorkerProof
  import opened Protocol
  import opened StateProof
  import opened StepProof
  import opened Guarantees

  predicate Final(s: Status) {
    s.Completed? || s.Failed?
  }

  /** A conversion reaches COMPLETED or FAILED between two database states. */
  predicate Settles(a: Db, b: Db, id: Id) {
    id in a.conversions && id in b.conversions && !Final(a.conversions[id].status) && Final(b.conversions[id].status)
  }

  /** One conversion settles with outcome `o`: its source amount leaves the reserved column, as a commit
      with the target credited or as a release; no other wallet and no other conversion changes. */
  ghost predicate SettlesAlone(a: Db, b: Db, id: Id, o: Outcome) {
    && Settles(a, b, id) && a.conversions[id].status == ExecutionRequested
    && o != Unknown && OutcomeOf(b.conversions[id].status) == o
    && MovesOnly(a.wallets, b.wallets, a.conversions[id], o)
    && b.conversions == a.conversions[id := b.conversions[id]]
  }

  predicate NothingSettles(a: Db, b: Db) {
    a.wallets == b.wallets && forall id :: id in a.conversions ==> !Settles(a, b, id)
  }

  lemma SettleMovesOnce(db: Db, funded: map<WalletKey, nat>, p: Payload, o: Outcome, reason: Option<string>, now: int)
    requires DbInv(db, funded) && WorkerOk(db, p, Executed(o, reason))
    ensures match Settle(db, p, o, reason, now)
            case Settled(after) =>
              && p.eventId !in db.markers && p.eventId in after.markers
              && (NothingSettles(db, after) || SettlesAlone(db, after, p.conversionId, o))
            case _ => true
  {
    hide Settle, TablesInv, LedgerOk, Worth, PayloadOf, PayloadMatches, MoveFunds, ApplyResult, Lifecycle;
    hide RoomForTarget, MovesOnly;
    GenuineRow(db, p);
    SettleEffect(db, funded, p, o, reason, now);
    var c := db.conversions[p.conversionId];
    if Settle(db, p, o, reason, now).Settled? && !Terminal(c.status) {
      SettledRowIsRight(c, o, now, reason, db.exchange);
      if o == Unknown {
        UnknownMovesNothing(db.wallets, c);
      } else {
        SettlementRefusedOnlyWithoutRoom(db.wallets, db.conversions, funded, p.conversionId, o);
      }
    }
  }

  lemma UnknownMovesNothing(ws: WalletTable, c: ConversionRow)
    ensures MoveFunds(ws, c, Unknown) == Ok(ws)
  {
  }

  /** A step of a handler, on any message: either it settles the one conversion its message names, in the
      step that also records the marker, or no wallet moves and nothing settles. */
  lemma HandlerSettlesAtMostOne(db: Db, funded: map<WalletKey, nat>, p: Payload, pc: Pc, mode: Outcome, now: int)
    requires DbInv(db, funded) && WorkerOk(db, p, pc)
    ensures var after := HandlerStep(db, p, pc, mode, now).0;
            || NothingSettles(db, after)
            || (pc.Executed? && p.eventId !in db.markers && p.eventId in after.markers
                && SettlesAlone(db, after, p.conversionId, pc.outcome))
  {
    hide DbInv, WorkerOk, Settle, SettlesAlone, Inspect, ReadResult, PlaceOrder, InsertIfAbsent;
    if pc.Executed? {
      SettleMovesOnce(db, funded, p, pc.outcome, pc.reason, now);
    }
  }

  /** What a step may do to the wallets. */
  ghost predicate MovementOk(s: State, step: Step, t: State) {
    match step
    case Fund(user, m) =>
      && NothingSettlesIn(s.db, t.db)
      && forall k :: Row(t.db.wallets, k).reserved == Row(s.db.wallets, k).reserved
                     && Row(t.db.wallets, k).balance - Row(s.db.wallets, k).balance
                        == FundedOf(t.funded, k) - FundedOf(s.funded, k)
    case CommitAccept(_, id, _) =>
      && NothingSettlesIn(s.db, t.db)
      && (t.db.wallets == s.db.wallets || HeldAlone(s.db, t.db, id))
    case Handle(w, _) =>
      || NothingSettles(s.db, t.db)
      || (w in s.workers && s.workers[w].pc.Executed?
          && var p := s.workers[w].message.payload;
          && p.eventId !in s.db.markers && p.eventId in t.db.markers
          && SettlesAlone(s.db, t.db, p.conversionId, s.workers[w].pc.outcome))
    case _ => NothingSettles(s.db, t.db)
  }

  predicate NothingSettlesIn(a: Db, b: Db) {
    forall id :: id in a.conversions ==> !Settles(a, b, id)
  }

  /** A new conversion's source amount becomes reserved, and no other wallet changes. */
  ghost predicate HeldAlone(a: Db, b: Db, id: Id) {
    && id !in a.conversions && id in b.conversions && b.conversions[id].status == FundsReserved
    && forall k :: var c := b.conversions[id];
         Row(b.wallets, k) == if k == WalletKey(c.userId, c.source.asset)
                              then Moved(Row(a.wallets, k), Reserve, c.source.units)
                              else Row(a.wallets, k)
  }

  lemma FundMoves(s: State, user: Id, m: Money)
    ensures MovementOk(s, Fund(user, m), DoFund(s, user, m))
  {
    hide Stored;
  }

  lemma AcceptHolds(db: Db, funded: map<WalletKey, nat>, key: Id, quoteId: Id, seen: Option<QuoteRow>,
                    now: int, id: Id, event: Id)
    requires DbInv(db, funded) && SeenOk(db, quoteId, seen)
    requires key !in db.records && id !in db.conversions && event !in db.outbox
    ensures var after := Accept(db, key, quoteId, seen, now, id, event).0;
            NothingSettlesIn(db, after) && (after.wallets == db.wallets || HeldAlone(db, after, id))
  {
    hide Accept, LedgerOk, SeenOk, Stored, PayloadOf, BodyOf, RecordsOk, OrdersOk, ResultsOk, MarkersOk;
    hide QuotesOk, LifecyclesOk, HaveEvents, OnePerQuote, AcceptedAreConverted, OutboxOwned;
    AcceptCommitsAllOrNothing(db, funded, key, quoteId, seen, now, id, event);
  }

  lemma CommitMoves(s: State, tx: Id, id: Id, event: Id)
    requires StateInv(s)
    ensures MovementOk(s, CommitAccept(tx, id, event), DoCommitAccept(s, tx, id, event))
  {
    hide WorkersOk, EventsKept, DbInv, SeenOk, Accept, HeldAlone;
    if tx in s.accepting && id !in s.db.conversions && event !in s.db.outbox {
      var a := s.accepting[tx];
      AcceptHolds(s.db, s.funded, a.key, a.quoteId, a.seen, a.now, id, event);
    }
  }

  lemma HandleMoves(s: State, w: Id, now: int)
    requires StateInv(s)
    ensures MovementOk(s, Handle(w, now), DoHandle(s, w, now))
  {
    hide DbInv, StateInv, HandlerStep, WorkerOk, SettlesAlone;
    if w in s.workers && InHandler(s.workers[w].pc) {
      UnpackState(s);
      var x := s.workers[w];
      assert WorkerOk(s.db, x.message.payload, x.pc);
      HandlerSettlesAtMostOne(s.db, s.funded, x.message.payload, x.pc, ModeFor(s, x.message.payload.eventId), now);
    }
  }

  /** Every step of the system, from every reachable state: a deposit changes balances by what was funded,
      an accept holds the source amount of its own new conversion, a handler's settlement moves the two
      wallets of the one conversion that reaches COMPLETED or FAILED in that same step; nothing else moves
      funds and nothing else settles. */
  lemma EveryMovementIsExplained(maxRetries: nat, steps: seq<Step>, step: Step)
    ensures MovementOk(After(maxRetries, steps), step, After(maxRetries, steps + [step]))
  {
    hide StateInv, MovementOk, DoFund, DoRequestQuote, DoBeginAccept, DoCommitAccept, DoPublishRow, DoMarkRow;
    hide DoDeliver, DoHandle;
    hide DoHandlerThrows, DoRepublishCopy, DoAck, DoNack, DoLoseChannel, DoCrash, Run, Start;
    var s := After(maxRetries, steps);
    ReachableState(maxRetries, steps);
    NextState(maxRetries, steps, step);
    match step
    case Fund(user, m) => FundMoves(s, user, m);
    case CommitAccept(tx, id, event) => CommitMoves(s, tx, id, event);
    case Handle(w, now) => HandleMoves(s, w, now);
    case _ =>
      OtherStepsMoveNothing(s, step);
      StillNothing(s, step, Do(s, step));
  }

  lemma StillNothing(s: State, step: Step, t: State)
    requires !step.Fund? && !step.CommitAccept? && !step.Handle?
    requires t.db.wallets == s.db.wallets && t.db.conversions == s.db.conversions
    ensures MovementOk(s, step, t)
  {
  }

  lemma OtherStepsMoveNothing(s: State, step: Step)
    requires !step.Fund? && !step.CommitAccept? && !step.Handle?
    ensures Do(s, step).db.wallets == s.db.wallets && Do(s, step).db.conversions == s.db.conversions
  {
    hide CreateQuote, SaveNewQuote, DoFund, DoCommitAccept, DoHandle, DoBeginAccept, DoPublishRow, DoDeliver;
    hide DoHandlerThrows, DoRepublishCopy, DoAck, DoNack, DoLoseChannel, DoCrash, Without;
    OtherStepsKeepDatabase(s, step);
  }

  // ----- one settlement, column by column

  /** What a settlement leaves in a wallet: the source amount leaves the reserved column, with the balance or back
      to the available one, and a SUCCESS brings in the target amount. */
  lemma MovedInNumbers(ws: WalletTable, after: WalletTable, c: ConversionRow, o: Outcome, k: WalletKey)
    requires MovesOnly(ws, after, c, o)
    ensures var r := Row(ws, k);
            Row(after, k) ==
            if k.user != c.userId || o == Unknown then r
            else if k.asset == c.source.asset then
              if o == Success then WalletRow(r.balance - c.source.units, r.available, r.reserved - c.source.units)
              else WalletRow(r.balance, r.available + c.source.units, r.reserved - c.source.units)
            else if o == Success && k.asset == c.target.asset
            then WalletRow(r.balance + c.target.units, r.available + c.target.units, r.reserved)
            else r
  {
    hide Row;
  }

  lemma SettleStep(db: Db, p: Payload, o: Outcome, reason: Option<string>, mode: Outcome, now: int)
    ensures HandlerStep(db, p, Executed(o, reason), mode, now)
         == match Settle(db, p, o, reason, now)
            case AlreadyClaimed => (db, Returned)
            case Settled(after) => (after, Returned)
            case RolledBack(e) => (db, Failing(SettlementRefused(e)))
  {
    hide Settle;
  }

  /** The row of a requested conversion once its result is in. */
  function ResultRow(c: ConversionRow, o: Outcome, now: int): ConversionRow {
    match o
    case Success => c.(status := Completed, completedAt := Some(now))
    case Failure => c.(status := Failed, completedAt := Some(now), failureReason := Some("simulated_exchange_failure"))
    case Unknown => c.(status := RequiresReconciliation, failureReason := Some("simulated_exchange_timeout"))
  }

  lemma ReasonIsTheExchanges(db: Db, p: Payload, o: Outcome, reason: Option<string>)
    requires TablesInv(db) && WorkerOk(db, p, Executed(o, reason))
    ensures reason == match o
                      case Success => None
                      case Failure => Some("simulated_exchange_failure")
                      case Unknown => Some("simulated_exchange_timeout")
  {
    hide RowsInv, RecordsOk, ResultsOk, MarkersOk, Genuine, SameCommand;
    assert OrderOk(p.eventId, db.exchange[p.eventId], db.outbox, db.conversions);
  }

  lemma SettlesInFull(db: Db, funded: map<WalletKey, nat>, p: Payload, o: Outcome, reason: Option<string>, now: int)
    requires DbInv(db, funded) && WorkerOk(db, p, Executed(o, reason))
    requires p.eventId !in db.markers && db.conversions[p.conversionId].status == ExecutionRequested
    ensures var c := db.conversions[p.conversionId];
            match Settle(db, p, o, reason, now)
            case AlreadyClaimed => false
            case RolledBack(e) =>
              o == Success && !RoomForTarget(db.wallets, c) && e == WalletRefused(ConstraintViolated)
            case Settled(after) =>
              && (o == Success ==> RoomForTarget(db.wallets, c))
              && MovesOnly(db.wallets, after.wallets, c, o)
              && after == db.(wallets := after.wallets,
                              markers := db.markers[p.eventId := Marker(p.conversionId, o)],
                              conversions := db.conversions[p.conversionId := ResultRow(c, o, now)])
  {
    hide Settle, RoomForTarget, TablesInv, LedgerOk, MoveFunds, Worth, PayloadOf, PayloadMatches, MovesOnly, ResultOk;
    GenuineRow(db, p);
    SettleEffect(db, funded, p, o, reason, now);
    SettlementRefusedOnlyWithoutRoom(db.wallets, db.conversions, funded, p.conversionId, o);
    ReasonIsTheExchanges(db, p, o, reason);
  }

  /** The settlement step of a requested conversion in full, for every key of every table: its row takes the
      exchange's result at the time of the step, its event is marked, and its two wallets move. */
  lemma SettlementInFull(maxRetries: nat, steps: seq<Step>, w: Id, now: int, k: WalletKey)
    requires var s := After(maxRetries, steps);
             && w in s.workers && s.workers[w].pc.Executed? && s.workers[w].message.payload.eventId !in s.db.markers
    requires var s := After(maxRetries, steps);
             && s.workers[w].message.payload.conversionId in s.db.conversions
             && s.db.conversions[s.workers[w].message.payload.conversionId].status == ExecutionRequested
    ensures var s, t := After(maxRetries, steps), After(maxRetries, steps + [Handle(w, now)]);
            var p, o := s.workers[w].message.payload, s.workers[w].pc.outcome;
            var c := s.db.conversions[p.conversionId];
            var r := Row(s.db.wallets, k);
            && w in t.workers && t.workers[w].message == s.workers[w].message
            && if o == Success && !RoomForTarget(s.db.wallets, c) then
                 t.db == s.db && t.workers[w].pc == Failing(SettlementRefused(WalletRefused(ConstraintViolated)))
               else
                 && t.workers[w].pc == Returned
                 && t.db.markers == s.db.markers[p.eventId := Marker(p.conversionId, o)]
                 && t.db.conversions
                    == s.db.conversions[p.conversionId :=
                                          match o
                                          case Success => c.(status := Completed, completedAt := Some(now))
                                          case Failure =>
                                            c.(status := Failed, completedAt := Some(now),
                                               failureReason := Some("simulated_exchange_failure"))
                                          case Unknown =>
                                            c.(status := RequiresReconciliation,
                                               failureReason := Some("simulated_exchange_timeout"))]
                 && Row(t.db.wallets, k)
                    == (if k.user != c.userId || o == Unknown then r
                        else if k.asset == c.source.asset then
                          if o == Success
                          then WalletRow(r.balance - c.source.units, r.available, r.reserved - c.source.units)
                          else WalletRow(r.balance, r.available + c.source.units, r.reserved - c.source.units)
                        else if o == Success && k.asset == c.target.asset
                        then WalletRow(r.balance + c.target.units, r.available + c.target.units, r.reserved)
                        else r)
                 && t.db == s.db.(wallets := t.db.wallets, conversions := t.db.conversions, markers := t.db.markers)
  {
    hide After, StateInv, Settle, RoomForTarget, TablesInv, LedgerOk, Row, MovesOnly, MoveFunds, Lifecycle, WorkersOk;
    hide AcceptingOk, EventsKept, RowsInv, RecordsOk, OrdersOk, ResultsOk, MarkersOk, WorkerOk, ApplyResult;
    hide HandlerStep;
    var s := After(maxRetries, steps);
    ReachableState(maxRetries, steps);
    UnpackState(s);
    KnownWorker(s, w);
    NextState(maxRetries, steps, Handle(w, now));
    var p, o, reason := s.workers[w].message.payload, s.workers[w].pc.outcome, s.workers[w].pc.reason;
    SettleStep(s.db, p, o, reason, ModeFor(s, p.eventId), now);
    SettlesInFull(s.db, s.funded, p, o, reason, now);
    if Settle(s.db, p, o, reason, now).Settled? {
      MovedInNumbers(s.db.wallets, Settle(s.db, p, o, reason, now).db.wallets, s.db.conversions[p.conversionId], o, k);
    }
  }

  // ----- counting

  /** How many steps of a run settled a conversion. */
  function Settlements(maxRetries: nat, steps: seq<Step>, id: Id): nat {
    if steps == [] then 0
    else
      var before := steps[..|steps| - 1];
      Settlements(maxRetries, before, id)
      + (if Settles(After(maxRetries, before).db, After(maxRetries, steps).db, id) then 1 else 0)
  }

  /** In every run a conversion's funds are settled exactly once if it is COMPLETED or FAILED at the end,
      and otherwise not at all, whatever workers, duplicates, crashes and lost markers there were. */
  lemma {:induction false} SettledExactlyOnce(maxRetries: nat, steps: seq<Step>, id: Id)
    ensures var rows := After(maxRetries, steps).db.conversions;
            Settlements(maxRetries, steps, id) == if id in rows && Final(rows[id].status) then 1 else 0
  {
    hide Run, StateInv, QuotesEvolve, OutboxEvolves, ExchangeEvolves;
    if steps == [] {
      NothingAtStart(maxRetries);
    } else {
      var before, step := steps[..|steps| - 1], steps[|steps| - 1];
      SettledExactlyOnce(maxRetries, before, id);
      RunOnlyMovesForward(maxRetries, before, [step]);
      assert before + [step] == steps;
      NewRowsAreNotFinal(maxRetries, before, step, id);
    }
  }

  lemma NothingAtStart(maxRetries: nat)
    ensures After(maxRetries, []).db.conversions == map[]
  {
  }

  /** A conversion first appears holding its funds. */
  lemma NewRowsAreNotFinal(maxRetries: nat, steps: seq<Step>, step: Step, id: Id)
    ensures var a, b := After(maxRetries, steps).db.conversions, After(maxRetries, steps + [step]).db.conversions;
            id in b && id !in a ==> b[id].status == FundsReserved
  {
    hide After, StateInv, DoFund, DoRequestQuote, DoMarkRow, DoHandle, Do;
    var s := After(maxRetries, steps);
    ReachableState(maxRetries, steps);
    NextState(maxRetries, steps, step);
    FirstAppearance(s, step, id);
  }

  lemma FirstAppearance(s: State, step: Step, id: Id)
    requires StateInv(s)
    ensures var b := Do(s, step).db.conversions;
            id in b && id !in s.db.conversions ==> b[id].status == FundsReserved
  {
    hide StateInv, DoFund, DoCommitAccept, DoHandle, DoBeginAccept, DoPublishRow, DoDeliver, DoRequestQuote, DoMarkRow;
    hide DoHandlerThrows, DoRepublishCopy, DoAck, DoNack, DoLoseChannel, DoCrash, Without;
    match step
    case Fund(user, m) => FundKeepsRows(s, user, m);
    case CommitAccept(tx, created, event) => AcceptAddsHeld(s, tx, created, event, id);
    case Handle(w, now) => HandleAddsNone(s, w, now, id);
    case _ => OtherStepsMoveNothing(s, step);
  }

  lemma FundKeepsRows(s: State, user: Id, m: Money)
    ensures DoFund(s, user, m).db.conversions == s.db.conversions
  {
    hide UpdateRow, CreateIfMissing;
  }

  lemma HandleAddsNone(s: State, w: Id, now: int, id: Id)
    ensures id in DoHandle(s, w, now).db.conversions ==> id in s.db.conversions
  {
    hide HandlerStep;
    if w in s.workers {
      var x := s.workers[w];
      HandlerAddsNone(s.db, x.message.payload, x.pc, ModeFor(s, x.message.payload.eventId), now, id);
    }
  }

  lemma HandlerAddsNone(db: Db, p: Payload, pc: Pc, mode: Outcome, now: int, id: Id)
    ensures id in HandlerStep(db, p, pc, mode, now).0.conversions ==> id in db.conversions
  {
    hide Inspect, ReadResult, PlaceOrder, MoveFunds, ApplyResult, PayloadMatches;
  }

  lemma AcceptAddsHeld(s: State, tx: Id, created: Id, event: Id, id: Id)
    requires StateInv(s)
    ensures var b := DoCommitAccept(s, tx, created, event).db.conversions;
            id in b && id !in s.db.conversions ==> b[id].status == FundsReserved
  {
    hide WorkersOk, EventsKept, LedgerOk, SeenOk, Accept, RecordsOk, OrdersOk, ResultsOk, MarkersOk, PayloadOf;
    hide BodyOf, UpdateRow;
    hide QuotesOk, LifecyclesOk, HaveEvents, OnePerQuote, AcceptedAreConverted, OutboxOwned;
    if tx in s.accepting && created !in s.db.conversions && event !in s.db.outbox {
      var a := s.accepting[tx];
      AcceptCommitsAllOrNothing(s.db, s.funded, a.key, a.quoteId, a.seen, a.now, created, event);
    }
  }
}
