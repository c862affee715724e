/** Each step of the system keeps its invariant. */
module StepProof {
  import opened Common
  import opened Moneys
  import opened Wallets
  import opened Conversions
  import opened Pricing
  import opened Tables
  import opened Transactions
  import opened Execution
  import opened Ledger
  import opened Invariants
  import opened AcceptProof
  import opened DatabaseProof
  import opened WorkerProof
  import opened Protocol
  import opened StateProof

  // ----- broker moves

  lemma QueueGrows(s: State, m: Message)
    requires StateInv(s)
    ensures StateInv(s.(queue := s.queue + multiset{m}))
  {
    hide DbInv, WorkersOk, AcceptingOk, Owned, HasCopy;
    var t := s.(queue := s.queue + multiset{m});
    forall e | e in s.db.outbox && EventKept(s, e) ensures EventKept(t, e) {
      CopyAdded(s.queue, m, s.db.outbox[e].payload);
    }
    BrokerStep(s, t);
  }

  lemma DeadLettersGrow(s: State, m: Message)
    requires StateInv(s)
    ensures StateInv(s.(deadLetters := s.deadLetters + multiset{m}))
  {
    hide DbInv, WorkersOk, AcceptingOk, Owned, HasCopy;
    var t := s.(deadLetters := s.deadLetters + multiset{m});
    forall e | e in s.db.outbox && EventKept(s, e) ensures EventKept(t, e) {
      CopyAdded(s.deadLetters, m, s.db.outbox[e].payload);
    }
    BrokerStep(s, t);
  }

  /** The event of a payload that a returned worker held is settled. */
  lemma ReturnedEventIsSettled(s: State, event: Id, p: Payload)
    requires DbInv(s.db, s.funded) && event in s.db.outbox && s.db.outbox[event].payload == p
    requires WorkerOk(s.db, p, Returned)
    ensures Owned(s.db.outbox, s.db.conversions, event)
    ensures Terminal(OwnerStatus(s.db.outbox, s.db.conversions, event))
  {
    hide RecordsOk, OrdersOk, ResultsOk, MarkersOk, LedgerOk, LifecyclesOk, FromQuotes, OnePerQuote, QuotesOk;
    hide AcceptedAreConverted;
    hide HaveEvents, OutboxOwned;
    ReturnedMeansSettled(s.db, event, p);
  }

  /** A worker moves on with the same message. */
  lemma WorkerMoves(s: State, w: Id, x: Worker)
    requires StateInv(s) && w in s.workers && x.message == s.workers[w].message
    requires WorkerOk(s.db, x.message.payload, x.pc)
    requires Minds(s.workers[w], x.message.payload) && !Minds(x, x.message.payload) ==>
               x.pc.Returned? || HasCopy(s.queue, x.message.payload) || HasCopy(s.deadLetters, x.message.payload)
    ensures StateInv(s.(workers := s.workers[w := x]))
  {
    hide DbInv, AcceptingOk, HasCopy, WorkerOk, Owned;
    var t := s.(workers := s.workers[w := x]);
    forall e | e in s.db.outbox && EventKept(s, e) ensures EventKept(t, e) {
      var p := s.db.outbox[e].payload;
      if x.message.payload == p && x.pc.Returned? {
        ReturnedEventIsSettled(s, e, p);
      } else if Minded(s.workers, p) && (Minds(s.workers[w], p) ==> Minds(x, p)) {
        MindedAfter(s.workers, w, x, p);
      }
    }
    BrokerStep(s, t);
  }

  /** A worker is gone: acked, or its copy went back. */
  lemma WorkerGoes(s: State, w: Id)
    requires StateInv(s) && w in s.workers
    requires Minds(s.workers[w], s.workers[w].message.payload) ==> HasCopy(s.queue, s.workers[w].message.payload)
    ensures StateInv(s.(workers := Without(s.workers, w)))
  {
    hide DbInv, AcceptingOk, HasCopy, WorkerOk, Owned;
    var t := s.(workers := Without(s.workers, w));
    forall e | e in s.db.outbox && EventKept(s, e) ensures EventKept(t, e) {
      var p := s.db.outbox[e].payload;
      if Minded(s.workers, p) && !Minds(s.workers[w], p) {
        MindedWithout(s.workers, w, p);
      }
    }
    BrokerStep(s, t);
  }

  lemma Requeue(s: State, w: Id)
    requires StateInv(s) && w in s.workers
    ensures var t := s.(queue := Requeued(s, w));
            StateInv(t) && (s.workers[w].attached ==> HasCopy(t.queue, s.workers[w].message.payload))
  {
    hide StateInv;
    if s.workers[w].attached {
      QueueGrows(s, s.workers[w].message);
      CopyAdded(s.queue, s.workers[w].message, s.workers[w].message.payload);
    } else {
      assert s.(queue := Requeued(s, w)) == s;
    }
  }

  lemma DeliverKeeps(s: State, w: Id, m: Message)
    requires StateInv(s)
    ensures StateInv(DoDeliver(s, w, m))
  {
    hide DbInv, AcceptingOk, WorkerOk, Owned, HasCopy;
    if w !in s.workers && m in s.queue {
      var t := DoDeliver(s, w, m);
      PlainWorkers(s.db, m.payload);
      forall e | e in s.db.outbox && EventKept(s, e) ensures EventKept(t, e) {
        var p := s.db.outbox[e].payload;
        if m.payload == p {
          assert Minds(t.workers[w], p);
        } else if HasCopy(s.queue, p) {
          CopyTaken(s.queue, m, p);
        } else if Minded(s.workers, p) {
          var v :| v in s.workers && Minds(s.workers[v], p);
          assert Minds(t.workers[v], p);
        }
      }
      BrokerStep(s, t);
    }
  }

  lemma PublishKeeps(s: State, event: Id, arrives: bool, confirms: bool)
    requires StateInv(s)
    ensures StateInv(DoPublishRow(s, event, arrives, confirms))
  {
    hide DbInv, WorkersOk, AcceptingOk, Owned, HasCopy;
    if event in s.db.outbox && arrives {
      var p := s.db.outbox[event].payload;
      QueueGrows(s, Message(p, 0));
      var t := s.(queue := s.queue + multiset{Message(p, 0)});
      CopyAdded(s.queue, Message(p, 0), p);
      var u := DoPublishRow(s, event, arrives, confirms);
      BrokerStep(t, u);
    }
  }

  lemma MarkKeeps(s: State, event: Id, now: int)
    requires StateInv(s)
    ensures StateInv(DoMarkRow(s, event, now))
  {
    hide DbInv, WorkersOk, AcceptingOk, Evolves, InBroker, Owned;
    var t := DoMarkRow(s, event, now);
    if t != s {
      MarkPublishedKeepsInvariant(s.db, s.funded, event, now);
      WorkersStable(s.db, t.db, s.workers);
      AcceptingStable(s.db, t.db, s.accepting);
      forall e | e in t.db.outbox ensures EventKept(t, e) {
        assert EventKept(s, e);
        if Owned(s.db.outbox, s.db.conversions, e) && Terminal(OwnerStatus(s.db.outbox, s.db.conversions, e)) {
          SettledStable(s.db, t.db, e);
        }
      }
    }
  }

  // ----- worker moves

  lemma HandlerLeavesTables(db: Db, p: Payload, pc: Pc, mode: Outcome, now: int)
    ensures var after := HandlerStep(db, p, pc, mode, now).0;
            after.outbox == db.outbox && after.records == db.records && after.quotes == db.quotes
  {
    hide Inspect, ReadResult, PlaceOrder, UpdateRow, CommitAndCredit;
  }

  lemma HandleKeeps(s: State, w: Id, now: int)
    requires StateInv(s)
    ensures StateInv(DoHandle(s, w, now))
  {
    hide DbInv, AcceptingOk, Evolves, HandlerStep, WorkerOk, HasCopy, EventsKept;
    if w in s.workers && InHandler(s.workers[w].pc) {
      var x := s.workers[w];
      var p := x.message.payload;
      var mode := ModeFor(s, p.eventId);
      HandlerLeavesTables(s.db, p, x.pc, mode, now);
      HandlerKeepsInvariant(s.db, s.funded, p, x.pc, mode, now);
      var (db, pc) := HandlerStep(s.db, p, x.pc, mode, now);
      DatabaseStep(s, db, s.funded);
      HandlerPcs(s.db, p, x.pc, mode, now);
      WorkerMoves(s.(db := db), w, x.(pc := pc));
      assert s.(db := db).(workers := s.workers[w := x.(pc := pc)]) == DoHandle(s, w, now);
    }
  }

  /** A handler never goes straight to its republished state. */
  lemma HandlerPcs(db: Db, p: Payload, pc: Pc, mode: Outcome, now: int)
    requires InHandler(pc)
    ensures !HandlerStep(db, p, pc, mode, now).1.Republished?
  {
    hide PayloadMatches, PlaceOrder, Settle, SameCommand, RequestIfReserved;
  }

  lemma ThrowKeeps(s: State, w: Id)
    requires StateInv(s)
    ensures StateInv(DoHandlerThrows(s, w))
  {
    hide StateInv, WorkerOk, HasCopy;
    if w in s.workers && InHandler(s.workers[w].pc) {
      PlainWorkers(s.db, s.workers[w].message.payload);
      WorkerMoves(s, w, s.workers[w].(pc := Failing(StorageFailure)));
    }
  }

  lemma RepublishKeeps(s: State, w: Id, arrives: bool, confirms: bool)
    requires StateInv(s)
    ensures StateInv(DoRepublishCopy(s, w, arrives, confirms))
  {
    hide StateInv, WorkerOk, HasCopy;
    if w in s.workers && MayRepublish(s.workers[w].pc) {
      var x := s.workers[w];
      var m := x.message;
      var x' := x.(pc := if arrives && confirms then Republished else Nacking);
      PlainWorkers(s.db, m.payload);
      if !arrives {
        WorkerMoves(s, w, x');
      } else if m.retries < s.maxRetries {
        var copy := Message(m.payload, m.retries + 1);
        QueueGrows(s, copy);
        CopyAdded(s.queue, copy, m.payload);
        WorkerMoves(s.(queue := s.queue + multiset{copy}), w, x');
        assert s.(queue := s.queue + multiset{copy}).(workers := s.workers[w := x'])
            == DoRepublishCopy(s, w, arrives, confirms);
      } else {
        DeadLettersGrow(s, m);
        CopyAdded(s.deadLetters, m, m.payload);
        WorkerMoves(s.(deadLetters := s.deadLetters + multiset{m}), w, x');
        assert s.(deadLetters := s.deadLetters + multiset{m}).(workers := s.workers[w := x'])
            == DoRepublishCopy(s, w, arrives, confirms);
      }
    }
  }

  lemma LeaveKeeps(s: State, w: Id)
    requires StateInv(s)
    ensures StateInv(DoAck(s, w)) && StateInv(DoNack(s, w)) && StateInv(DoLoseChannel(s, w)) && StateInv(DoCrash(s, w))
  {
    hide StateInv, WorkerOk, HasCopy;
    if w in s.workers {
      var x := s.workers[w];
      if x.pc.Returned? || x.pc.Republished? {
        WorkerGoes(s, w);
      }
      Requeue(s, w);
      var t := s.(queue := Requeued(s, w));
      WorkerGoes(t, w);
      assert t.(workers := Without(t.workers, w)) == DoCrash(s, w);
      KnownWorker(t, w);
      WorkerMoves(t, w, x.(attached := false));
      assert t.(workers := t.workers[w := x.(attached := false)]) == DoLoseChannel(s, w);
    }
  }

  lemma KnownWorker(s: State, w: Id)
    requires StateInv(s) && w in s.workers
    ensures WorkerOk(s.db, s.workers[w].message.payload, s.workers[w].pc)
  {
    hide DbInv, AcceptingOk, WorkerOk, EventsKept;
  }

  // ----- database moves from outside the workers

  lemma FundKeeps(s: State, user: Id, m: Money)
    requires StateInv(s)
    ensures StateInv(DoFund(s, user, m))
  {
    hide WorkersOk, AcceptingOk, EventsKept, TablesInv, LedgerOk, UpdateRow, CreateIfMissing, Evolves;
    var k := WalletKey(user, m.asset);
    if UpdateRow(CreateIfMissing(s.db.wallets, k), k, Credit, m.units).Ok? {
      var ws := UpdateRow(CreateIfMissing(s.db.wallets, k), k, Credit, m.units).value;
      FundKeepsLedger(s.db.wallets, s.db.conversions, s.funded, k, m.units);
      WalletChangeKeepsInvariant(s.db, s.funded, ws, s.funded[k := FundedOf(s.funded, k) + m.units]);
      DatabaseStep(s, s.db.(wallets := ws), s.funded[k := FundedOf(s.funded, k) + m.units]);
    }
  }

  lemma QuoteKeeps(s: State, id: Id, user: Id, text: string, from: Asset, to: Asset, now: int)
    requires StateInv(s)
    ensures StateInv(DoRequestQuote(s, id, user, text, from, to, now))
  {
    hide WorkersOk, AcceptingOk, EventsKept, TablesInv, LedgerOk, Evolves, StoredQuote, Worth;
    var q := CreateQuote(user, text, from, to, now);
    if id !in s.db.quotes && q.Ok? && SaveNewQuote(s.db.quotes, id, q.value).Ok? {
      SavedQuoteIsSound(user, text, from, to, now, s.db.quotes, id);
      NewQuoteIsActive(user, text, from, to, now);
      NewQuoteKeepsInvariant(s.db, s.funded, id, q.value);
      DatabaseStep(s, s.db.(quotes := s.db.quotes[id := q.value]), s.funded);
    }
  }

  lemma NewQuoteIsActive(user: Id, text: string, from: Asset, to: Asset, now: int)
    requires CreateQuote(user, text, from, to, now).Ok?
    ensures CreateQuote(user, text, from, to, now).value.status == Active
  {
  }

  lemma BeginKeeps(s: State, tx: Id, key: Id, quoteId: Id, now: int)
    requires StateInv(s)
    ensures StateInv(DoBeginAccept(s, tx, key, quoteId, now))
  {
    hide WorkersOk, EventsKept, LedgerOk, Evolves, QuoteOk, RecordsOk, OrdersOk, ResultsOk, MarkersOk;
    hide LifecyclesOk, FromQuotes, HaveEvents, OnePerQuote, AcceptedAreConverted, OutboxOwned;
    var t := DoBeginAccept(s, tx, key, quoteId, now);
    if t != s {
      var seen := t.accepting[tx].seen;
      assert SeenOk(s.db, quoteId, seen);
      EventsKeptAside(s, t);
    }
  }

  lemma EventsKeptAside(s: State, t: State)
    requires EventsKept(s) && t == s.(accepting := t.accepting)
    ensures EventsKept(t)
  {
    hide Owned, InBroker;
    forall e | e in t.db.outbox ensures EventKept(t, e) {
      assert EventKept(s, e);
    }
  }

  lemma AbortKeeps(s: State, tx: Id)
    requires StateInv(s)
    ensures StateInv(s.(accepting := Without(s.accepting, tx)))
  {
    hide WorkersOk, EventsKept, DbInv, SeenOk;
    EventsKeptAside(s, s.(accepting := Without(s.accepting, tx)));
  }

  /** Accept touches no record but its own key, and adds at most one unpublished outbox row. */
  lemma AcceptTouches(db: Db, key: Id, quoteId: Id, seen: Option<QuoteRow>, now: int, id: Id, event: Id)
    requires event !in db.outbox
    ensures var after := Accept(db, key, quoteId, seen, now, id, event).0;
            && (forall k :: k in after.records ==> k in db.records || k == key)
            && (forall e :: e in after.outbox ==> if e in db.outbox then after.outbox[e] == db.outbox[e]
                                                  else after.outbox[e].publishedAt.None?)
  {
    hide UpdateRow, PayloadOf, ShortText, AcceptInMemory, SaveAccepted, QuoteUnused, SaveConversion;
  }

  lemma CommitKeeps(s: State, tx: Id, id: Id, event: Id)
    requires StateInv(s)
    ensures StateInv(DoCommitAccept(s, tx, id, event))
  {
    hide WorkersOk, EventsKept, DbInv, SeenOk, Accept, Evolves;
    if tx in s.accepting && id !in s.db.conversions && event !in s.db.outbox {
      var a := s.accepting[tx];
      AcceptKeepsInvariant(s.db, s.funded, a.key, a.quoteId, a.seen, a.now, id, event);
      AcceptTouches(s.db, a.key, a.quoteId, a.seen, a.now, id, event);
      AbortKeeps(s, tx);
      var t := s.(accepting := Without(s.accepting, tx));
      DatabaseStep(t, Accept(s.db, a.key, a.quoteId, a.seen, a.now, id, event).0, s.funded);
    }
  }

  lemma CleanupKeeps(s: State, keys: set<Id>, event: Id)
    requires StateInv(s)
    ensures StateInv(s.(db := s.db.(records := s.db.records - keys)))
    ensures StateInv(s.(db := s.db.(markers := Without(s.db.markers, event))))
  {
    hide WorkersOk, AcceptingOk, EventsKept, Evolves;
    hide RowsInv, RecordsOk, OrdersOk, ResultsOk, LedgerOk, MarkerOk;
    RecordCleanupKeepsInvariant(s.db, s.funded, keys);
    DatabaseStep(s, s.db.(records := s.db.records - keys), s.funded);
    MarkersKeepInvariant(s.db, s.funded, Without(s.db.markers, event));
    DatabaseStep(s, s.db.(markers := Without(s.db.markers, event)), s.funded);
  }

  lemma ModesAside(s: State, t: State)
    requires StateInv(s) && t == s.(defaultMode := t.defaultMode, orderModes := t.orderModes)
    ensures StateInv(t)
  {
    hide DbInv, WorkersOk, AcceptingOk, Owned, InBroker;
    forall e | e in t.db.outbox ensures EventKept(t, e) {
      assert EventKept(s, e);
    }
  }

  // ----- every step, every run

  predicate WorkerStep(step: Step) {
    step.Deliver? || step.Handle? || step.HandlerThrows? || step.RepublishCopy? || step.Ack? || step.Nack?
    || step.LoseChannel? || step.Crash?
  }

  lemma WorkerStepKeepsInvariant(s: State, step: Step)
    requires StateInv(s) && WorkerStep(step)
    ensures StateInv(Do(s, step))
  {
    hide StateInv, DoDeliver, DoHandle, DoHandlerThrows, DoRepublishCopy, DoAck, DoNack, DoLoseChannel, DoCrash;
    hide Without;
    match step
    case Deliver(w, m) => DeliverKeeps(s, w, m);
    case Handle(w, now) => HandleKeeps(s, w, now);
    case HandlerThrows(w) => ThrowKeeps(s, w);
    case RepublishCopy(w, arrives, confirms) => RepublishKeeps(s, w, arrives, confirms);
    case _ => LeavingKeepsInvariant(s, step);
  }

  lemma LeavingKeepsInvariant(s: State, step: Step)
    requires StateInv(s) && (step.Ack? || step.Nack? || step.LoseChannel? || step.Crash?)
    ensures StateInv(Do(s, step))
  {
    hide StateInv, DoAck, DoNack, DoLoseChannel, DoCrash;
    LeaveKeeps(s, step.worker);
  }

  lemma StepKeepsInvariant(s: State, step: Step)
    requires StateInv(s)
    ensures StateInv(Do(s, step))
  {
    hide StateInv, DoFund, DoRequestQuote, DoBeginAccept, DoCommitAccept, DoPublishRow, DoMarkRow, Without;
    hide DoDeliver, DoHandle, DoHandlerThrows, DoRepublishCopy, DoAck, DoNack, DoLoseChannel, DoCrash;
    match step
    case Fund(user, m) => FundKeeps(s, user, m);
    case RequestQuote(id, user, text, from, to, now) => QuoteKeeps(s, id, user, text, from, to, now);
    case BeginAccept(tx, key, quoteId, now) => BeginKeeps(s, tx, key, quoteId, now);
    case CommitAccept(tx, id, event) => CommitKeeps(s, tx, id, event);
    case AbortAccept(tx) => AbortKeeps(s, tx);
    case CleanRecords(keys) => CleanupKeeps(s, keys, 0);
    case SetMode(mode) => ModesAside(s, s.(defaultMode := mode));
    case SetOrderMode(event, mode) => ModesAside(s, s.(orderModes := s.orderModes[event := mode]));
    case PublishRow(event, arrives, confirms) => PublishKeeps(s, event, arrives, confirms);
    case MarkRow(event, now) => MarkKeeps(s, event, now);
    case ForeignMessage(p, retries) => QueueGrows(s, Message(p, retries));
    case LoseMarker(event) => CleanupKeeps(s, {}, event);
    case _ => WorkerStepKeepsInvariant(s, step);
  }

  lemma StartInvariant(maxRetries: nat)
    ensures StateInv(Start(maxRetries))
  {
    var s := Start(maxRetries);
    forall k ensures InBalance(s.db.wallets, s.db.conversions, s.funded, k) {
    }
  }

  /** The invariant holds after every finite run. */
  lemma {:induction false} ReachableInvariant(maxRetries: nat, steps: seq<Step>)
    ensures StateInv(Run(Start(maxRetries), steps))
  {
    hide StateInv, Do;
    if steps == [] {
      StartInvariant(maxRetries);
    } else {
      ReachableInvariant(maxRetries, steps[..|steps| - 1]);
      StepKeepsInvariant(Run(Start(maxRetries), steps[..|steps| - 1]), steps[|steps| - 1]);
    }
  }
}
