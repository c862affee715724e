/** The other side of progress: a conversion whose message is only a dead letter stays as it is. */
module DeadEnds {
  import opened Common
  import Moneys
  import Pricing
  import opened Wallets
  import opened Conversions
  import opened Tables
  import opened Transactions
  import opened Execution
  import opened Ledger
  import opened Invariants
  import opened AcceptProof
  import opened DatabaseProof
  import opened WorkerProof
  import opened Protocol
  import opened StateProof
  import opened StepProof
  import opened Retries
  import opened Budgets
  import opened Guarantees
  import opened Settlement
  import opened Solo
  import opened Progress

  /** A message of the conversion, in any spelling. */
  predicate IsOf(rows: ConversionTable, id: Id, p: Payload) {
    p.conversionId == id && Own(rows, p)
  }

  predicate Carried(s: State, p: Payload) {
    exists w :: w in s.workers && s.workers[w].message.payload == p
  }

  /** No message of the conversion is queued or in any worker's hands, and its event is not due any more. */
  ghost predicate OnlyDead(s: State, id: Id) {
    && id in s.db.conversions && s.db.conversions[id].eventId.Some?
    && s.db.conversions[id].eventId.value in s.db.outbox && !Due(s, s.db.conversions[id].eventId.value)
    && forall p :: IsOf(s.db.conversions, id, p) ==> !HasCopy(s.queue, p) && !Carried(s, p)
  }

  // ----- no step of the system brings a message back

  lemma AbsentMeansNoBudget(s: State, p: Payload)
    requires !HasCopy(s.queue, p) && !Carried(s, p)
    ensures Budget(s, p) == 0
  {
    hide Queued, Budgets.Held;
    NoCopiesNoWeight(s.queue, p, s.maxRetries);
    IdleHandsNoWeight(s.workers, p, s.maxRetries);
  }

  lemma AbsentAddsNothing(s: State, step: Step, p: Payload)
    requires !Carried(s, p) && !step.ForeignMessage?
    requires step.PublishRow? && step.event in s.db.outbox ==> s.db.outbox[step.event].payload != p
    ensures Fault(s, step, p) == 0
  {
    hide HasCopy;
    CalmAddsNothing(s, step, p);
  }

  /** Workers keep their message; a new one took its message from the queue. */
  lemma HandsComeFromTheQueue(s: State, step: Step, w: Id)
    requires w in Do(s, step).workers
    ensures var p := Do(s, step).workers[w].message.payload; Carried(s, p) || HasCopy(s.queue, p)
  {
    hide HasCopy, DoFund, DoRequestQuote, DoBeginAccept, DoCommitAccept, DoPublishRow, DoMarkRow, Do;
    hide DoHandle, DoHandlerThrows, DoRepublishCopy, DoAck, DoNack, DoLoseChannel, DoCrash, DoDeliver, Carried;
    if !WorkerStep(step) {
      OtherWorkersStay(s, step);
      StillCarried(s, w);
    } else if step.Deliver? {
      DeliverIs(s, step);
      DeliveredHands(s, step.worker, step.message, w);
    } else {
      SameHands(s, step, w);
    }
  }

  lemma StillCarried(s: State, w: Id)
    requires w in s.workers
    ensures Carried(s, s.workers[w].message.payload)
  {
  }

  lemma OtherWorkersStay(s: State, step: Step)
    requires !WorkerStep(step)
    ensures Do(s, step).workers == s.workers
  {
    hide DoFund, DoRequestQuote, DoBeginAccept, DoCommitAccept, DoMarkRow;
    hide DoHandle, DoHandlerThrows, DoRepublishCopy, DoAck, DoNack, DoLoseChannel, DoCrash, DoDeliver, Without;
    if !step.ForeignMessage? && !step.PublishRow? {
      OthersKeepMessages(s, step);
    }
  }

  lemma DeliverIs(s: State, step: Step)
    requires step.Deliver?
    ensures Do(s, step) == DoDeliver(s, step.worker, step.message)
  {
    hide DoDeliver;
  }

  lemma DeliveredHands(s: State, v: Id, m: Message, w: Id)
    requires w in DoDeliver(s, v, m).workers
    ensures var p := DoDeliver(s, v, m).workers[w].message.payload; Carried(s, p) || HasCopy(s.queue, p)
  {
    hide HasCopy, Carried;
    if w in s.workers {
      StillCarried(s, w);
    } else {
      CopyIn(s.queue, m);
    }
  }

  lemma CopyIn(q: multiset<Message>, m: Message)
    ensures m in q ==> HasCopy(q, m.payload)
  {
  }

  /** Same workers with the same messages, or fewer. */
  predicate KeepsHands(s: State, t: State) {
    forall w :: w in t.workers ==> w in s.workers && t.workers[w].message == s.workers[w].message
  }

  lemma HandlingKeepsHands(s: State, v: Id, now: int)
    ensures KeepsHands(s, DoHandle(s, v, now)) && KeepsHands(s, DoHandlerThrows(s, v))
  {
    hide HandlerStep, ModeFor, InHandler;
  }

  lemma RepublishingKeepsHands(s: State, v: Id, arrives: bool, confirms: bool)
    ensures KeepsHands(s, DoRepublishCopy(s, v, arrives, confirms))
  {
    var t := DoRepublishCopy(s, v, arrives, confirms);
    if v in s.workers {
      assert t.workers == s.workers || t.workers == s.workers[v := s.workers[v].(pc := t.workers[v].pc)];
    }
  }

  lemma AckKeepsHands(s: State, v: Id)
    ensures KeepsHands(s, DoAck(s, v))
  {
  }

  lemma NackKeepsHands(s: State, v: Id)
    ensures KeepsHands(s, DoNack(s, v))
  {
    hide Requeued;
  }

  lemma LosingKeepsHands(s: State, v: Id)
    ensures KeepsHands(s, DoLoseChannel(s, v))
  {
    hide Requeued;
  }

  lemma CrashKeepsHands(s: State, v: Id)
    ensures KeepsHands(s, DoCrash(s, v))
  {
    hide Requeued;
  }

  lemma SameHands(s: State, step: Step, w: Id)
    requires WorkerStep(step) && !step.Deliver? && w in Do(s, step).workers
    ensures Carried(s, Do(s, step).workers[w].message.payload)
  {
    hide DoHandle, DoHandlerThrows, DoRepublishCopy, DoAck, DoNack, DoLoseChannel, DoCrash;
    match step
    case Handle(v, now) => HandlingKeepsHands(s, v, now);
    case HandlerThrows(v) => HandlingKeepsHands(s, v, 0);
    case RepublishCopy(v, arrives, confirms) => RepublishingKeepsHands(s, v, arrives, confirms);
    case Ack(v) => AckKeepsHands(s, v);
    case Nack(v) => NackKeepsHands(s, v);
    case LoseChannel(v) => LosingKeepsHands(s, v);
    case Crash(v) => CrashKeepsHands(s, v);
  }

  /** A message that is nowhere stays nowhere. */
  lemma AbsentStaysAbsent(s: State, step: Step, p: Payload)
    requires !HasCopy(s.queue, p) && !Carried(s, p) && !step.ForeignMessage?
    requires step.PublishRow? && step.event in s.db.outbox ==> s.db.outbox[step.event].payload != p
    ensures !HasCopy(Do(s, step).queue, p) && !Carried(Do(s, step), p)
  {
    hide HasCopy, Do, Budget, Fault;
    AbsentMeansNoBudget(s, p);
    AbsentAddsNothing(s, step, p);
    StepIsPaid(s, step, p);
    NoBudgetNoCopy(Do(s, step), p);
    if Carried(Do(s, step), p) {
      var w :| w in Do(s, step).workers && Do(s, step).workers[w].message.payload == p;
      HandsComeFromTheQueue(s, step, w);
    }
  }

  lemma NoBudgetNoCopy(s: State, p: Payload)
    requires Budget(s, p) == 0
    ensures !HasCopy(s.queue, p)
  {
    hide HasCopy, Queued, Budgets.Held;
    QueuedCopiesCount(s.queue, p, s.maxRetries);
  }

  // ----- the database side

  /** The event of a message is that of its outbox row. */
  lemma PublishedElsewhere(s: State, id: Id, event: Id, p: Payload)
    requires StateInv(s) && OnlyDead(s, id) && IsOf(s.db.conversions, id, p)
    requires event in s.db.outbox && Due(s, event)
    ensures s.db.outbox[event].payload != p
  {
    hide DbInv, TablesInv, LedgerOk, WorkersOk, AcceptingOk, EventsKept, RecordsOk, OrdersOk, ResultsOk, MarkersOk;
    hide PayloadMatches;
    hide LifecyclesOk, FromQuotes, OnePerQuote, QuotesOk, AcceptedAreConverted, HaveEvents, OutboxOwned, HasCopy;
    hide StateInv;
    UnpackState(s);
    if s.db.outbox[event].payload == p {
      ReturnedMeansSettled(s.db, event, p);
    }
  }

  /** A marked row stays marked. */
  lemma MarkedStaysMarked(s: State, step: Step, event: Id)
    requires StateInv(s) && event in s.db.outbox && !Due(s, event)
    ensures event in Do(s, step).db.outbox && !Due(Do(s, step), event)
  {
    hide StateInv, Do, DoFund, DoCommitAccept, DoHandle;
    StepIs(s, step);
    OtherStepsKeepDatabase(s, step);
    match step
    case Fund(user, m) => FundKeepsOutbox(s, user, m);
    case RequestQuote(id, user, text, from, to, now) => QuoteKeepsOutbox(s, step);
    case CommitAccept(tx, id, e) => CommitKeepsOutbox(s, tx, id, e, event);
    case MarkRow(e, now) => MarkKeepsMarked(s, e, now, event);
    case Handle(w, now) => HandleKeepsOutbox(s, w, now);
    case CleanRecords(_) => CleanupKeepsOutbox(s, step);
    case LoseMarker(_) => CleanupKeepsOutbox(s, step);
    case _ =>
  }

  lemma CleanupKeepsOutbox(s: State, step: Step)
    requires step.CleanRecords? || step.LoseMarker?
    ensures Do(s, step).db.outbox == s.db.outbox
  {
    hide Without;
  }

  lemma MarkKeepsMarked(s: State, e: Id, now: int, event: Id)
    requires event in s.db.outbox && !Due(s, event)
    ensures var t := Do(s, MarkRow(e, now)); event in t.db.outbox && !Due(t, event)
  {
  }

  lemma FundKeepsOutbox(s: State, user: Id, m: Moneys.Money)
    ensures DoFund(s, user, m).db.outbox == s.db.outbox
  {
    hide UpdateRow, CreateIfMissing;
  }

  lemma QuoteKeepsOutbox(s: State, step: Step)
    requires step.RequestQuote?
    ensures Do(s, step).db.outbox == s.db.outbox
  {
    hide Pricing.CreateQuote, Pricing.SaveNewQuote;
  }

  lemma CommitKeepsOutbox(s: State, tx: Id, id: Id, e: Id, event: Id)
    requires event in s.db.outbox
    ensures var t := DoCommitAccept(s, tx, id, e); event in t.db.outbox && t.db.outbox[event] == s.db.outbox[event]
  {
    hide Accept, Without;
    if tx in s.accepting && id !in s.db.conversions && e !in s.db.outbox {
      var a := s.accepting[tx];
      AcceptKeepsOutbox(s.db, a.key, a.quoteId, a.seen, a.now, id, e, event);
    }
  }

  lemma AcceptKeepsOutbox(db: Db, key: Id, quoteId: Id, seen: Option<Pricing.QuoteRow>, now: int, id: Id,
                          e: Id, event: Id)
    requires event in db.outbox && e !in db.outbox
    ensures var after := Accept(db, key, quoteId, seen, now, id, e).0;
            event in after.outbox && after.outbox[event] == db.outbox[event]
  {
    hide UpdateRow, PayloadOf, Moneys.ShortText, Pricing.AcceptInMemory, Pricing.SaveAccepted, QuoteUnused;
    hide SaveConversion;
  }

  lemma HandleKeepsOutbox(s: State, w: Id, now: int)
    ensures DoHandle(s, w, now).db.outbox == s.db.outbox
  {
    hide HandlerStep;
    if w in s.workers {
      var p := s.workers[w].message.payload;
      HandlerLeavesTables(s.db, p, s.workers[w].pc, ModeFor(s, p.eventId), now);
    }
  }

  /** A handler settles no conversion but that of its own message. */
  lemma OthersAreNotSettled(db: Db, p: Payload, pc: Pc, mode: Outcome, now: int, id: Id)
    requires WorkerOk(db, p, pc) && id in db.conversions && !IsOf(db.conversions, id, p)
    requires !Terminal(db.conversions[id].status)
    ensures var rows := HandlerStep(db, p, pc, mode, now).0.conversions; id in rows && !Terminal(rows[id].status)
  {
    hide PayloadMatches, PlaceOrder, ReadResult, Inspect, MoveFunds, ApplyResult;
  }

  lemma OthersKeepStatus(s: State, step: Step, id: Id)
    requires StateInv(s) && OnlyDead(s, id) && !Terminal(s.db.conversions[id].status)
    ensures var rows := Do(s, step).db.conversions; id in rows && !Terminal(rows[id].status)
  {
    hide StateInv, OnlyDead, DoFund, DoCommitAccept, DoHandle, Do;
    IsStored(s, id);
    if step.Fund? {
      FundKeepsRows(s, step.user, step.m);
      StepIs(s, step);
    } else if step.CommitAccept? {
      CommitKeepsRow(s, step.tx, step.id, step.event, id);
      StepIs(s, step);
    } else if step.Handle? {
      HandleKeepsStatus(s, step.worker, step.now, id);
      StepIs(s, step);
    } else {
      OtherStepsMoveNothing(s, step);
    }
  }

  lemma IsStored(s: State, id: Id)
    requires OnlyDead(s, id)
    ensures id in s.db.conversions
  {
  }

  lemma StepIs(s: State, step: Step)
    ensures step.Fund? ==> Do(s, step) == DoFund(s, step.user, step.m)
    ensures step.CommitAccept? ==> Do(s, step) == DoCommitAccept(s, step.tx, step.id, step.event)
    ensures step.Handle? ==> Do(s, step) == DoHandle(s, step.worker, step.now)
  {
    hide DoFund, DoCommitAccept, DoHandle;
  }

  lemma CommitKeepsRow(s: State, tx: Id, created: Id, e: Id, id: Id)
    requires StateInv(s) && id in s.db.conversions
    ensures var rows := DoCommitAccept(s, tx, created, e).db.conversions; id in rows && rows[id] == s.db.conversions[id]
  {
    hide WorkersOk, EventsKept, LedgerOk, SeenOk, Accept, RecordsOk, OrdersOk, ResultsOk, MarkersOk, PayloadOf, BodyOf;
    hide UpdateRow;
    hide QuotesOk, LifecyclesOk, HaveEvents, OnePerQuote, AcceptedAreConverted, OutboxOwned;
    if tx in s.accepting && created !in s.db.conversions && e !in s.db.outbox {
      var a := s.accepting[tx];
      AcceptCommitsAllOrNothing(s.db, s.funded, a.key, a.quoteId, a.seen, a.now, created, e);
    }
  }

  lemma HandleKeepsStatus(s: State, w: Id, now: int, id: Id)
    requires StateInv(s) && OnlyDead(s, id) && !Terminal(s.db.conversions[id].status)
    ensures var rows := DoHandle(s, w, now).db.conversions; id in rows && !Terminal(rows[id].status)
  {
    hide StateInv, HandlerStep, WorkerOk, IsOf, HasCopy, Due;
    if w in s.workers && InHandler(s.workers[w].pc) {
      var x := s.workers[w];
      KnownWorker(s, w);
      assert Carried(s, x.message.payload);
      OthersAreNotSettled(s.db, x.message.payload, x.pc, ModeFor(s, x.message.payload.eventId), now, id);
    }
  }

  // ----- together

  lemma IdentityStays(a: ConversionTable, b: ConversionTable, id: Id)
    requires ConversionsEvolve(a, b) && id in a
    ensures id in b && b[id].eventId == a[id].eventId
    ensures forall p :: IsOf(b, id, p) ==> IsOf(a, id, p)
  {
    hide PayloadMatches;
    SameTexts(a[id], b[id]);
  }

  lemma OnlyDeadStays(s: State, step: Step, id: Id)
    requires StateInv(s) && OnlyDead(s, id) && OwnStep(s, step)
    ensures OnlyDead(Do(s, step), id)
  {
    hide StateInv, Do, IsOf, HasCopy, Carried, Due, Own;
    var t := Do(s, step);
    StepEvolves(s, step);
    IdentityStays(s.db.conversions, t.db.conversions, id);
    MarkedStaysMarked(s, step, s.db.conversions[id].eventId.value);
    forall p | IsOf(t.db.conversions, id, p) ensures !HasCopy(t.queue, p) && !Carried(t, p) {
      if step.PublishRow? && step.event in s.db.outbox {
        PublishedElsewhere(s, id, step.event, p);
      }
      AbsentStaysAbsent(s, step, p);
    }
  }

  lemma {:induction false} OnlyDeadStayUnsettled(maxRetries: nat, steps: seq<Step>, more: seq<Step>, id: Id)
    requires OnlyDead(After(maxRetries, steps), id) && OwnRun(After(maxRetries, steps), more)
    requires !Terminal(After(maxRetries, steps).db.conversions[id].status)
    ensures OnlyDead(After(maxRetries, steps + more), id)
    ensures !Terminal(After(maxRetries, steps + more).db.conversions[id].status)
  {
    hide After, Do, OnlyDead, StateInv, OwnStep;
    IsStored(After(maxRetries, steps), id);
    if more == [] {
      assert steps + more == steps;
    } else {
      var k := |more| - 1;
      var init := more[..k];
      forall i | 0 <= i < k ensures OwnStep(Run(After(maxRetries, steps), init[..i]), init[i]) {
        assert init[..i] == more[..i];
      }
      OnlyDeadStayUnsettled(maxRetries, steps, init, id);
      var s := After(maxRetries, steps + init);
      ContinuedRun(maxRetries, steps, init);
      assert OwnStep(s, more[k]);
      ReachableState(maxRetries, steps + init);
      NextState(maxRetries, steps + init, more[k]);
      assert steps + init + [more[k]] == steps + more;
      OnlyDeadStays(s, more[k], id);
      OthersKeepStatus(s, more[k], id);
      IsStored(After(maxRetries, steps + more), id);
    }
  }

  /** An unsettled conversion whose event is marked as published and of which no message, in any spelling, is
      queued or in a worker's hands stays unsettled, whatever the system does by its own steps. */
  lemma DeadLettersStayUnsettled(maxRetries: nat, steps: seq<Step>, more: seq<Step>, id: Id)
    requires var s := After(maxRetries, steps);
             && id in s.db.conversions && s.db.conversions[id].eventId.Some?
             && var event := s.db.conversions[id].eventId.value;
             && event in s.db.outbox && s.db.outbox[event].publishedAt.Some?
             && (forall m :: m in s.queue ==> m.payload.conversionId != id || m.payload.eventId != event
                                              || !PayloadMatches(m.payload, s.db.conversions[id]))
             && (forall w :: w in s.workers ==>
                   var p := s.workers[w].message.payload;
                   p.conversionId != id || p.eventId != event || !PayloadMatches(p, s.db.conversions[id]))
    requires OwnRun(After(maxRetries, steps), more)
    requires After(maxRetries, steps).db.conversions[id].status in {FundsReserved, ExecutionRequested}
    ensures id in After(maxRetries, steps + more).db.conversions
    ensures After(maxRetries, steps + more).db.conversions[id].status in {FundsReserved, ExecutionRequested}
  {
    hide After, OwnRun, PayloadMatches;
    OnlyDeadStayUnsettled(maxRetries, steps, more, id);
    LifecycleRows(maxRetries, steps + more, id);
  }
}
