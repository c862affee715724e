/**
  The whole system as a state machine: the database, accept transactions in flight, the broker's main
  queue and dead-letter queue, and any number of workers, each holding one delivery.
  A step that is not possible in a state leaves it unchanged, so every finite list of steps is a run.
*/
module Protocol {
  import opened Common
  import opened Moneys
  import opened Wallets
  import opened Conversions
  import opened Pricing
  import opened Tables
  import opened Transactions
  import opened Execution

  /** A copy in the broker, with its x-retry-count. */
  datatype Message = Message(payload: Payload, retries: nat)

  /** A delivery being handled. `attached` says that the broker still counts it as unacked: after the
      channel is lost the copy is back in the queue while the handler runs on. */
  datatype Worker = Worker(message: Message, pc: Pc, attached: bool)

  /** An accept transaction that holds its key and has read its quote, but not yet committed. */
  datatype Accepting = Accepting(key: Id, quoteId: Id, seen: Option<QuoteRow>, now: int)

  datatype State = State(
    db: Db,
    accepting: map<Id, Accepting>,
    queue: multiset<Message>,
    deadLetters: multiset<Message>,
    workers: map<Id, Worker>,
    confirmed: set<Id>,           // events a publisher saw confirmed
    defaultMode: Outcome,
    orderModes: map<Id, Outcome>,
    funded: map<WalletKey, nat>,  // what came from outside, per wallet
    maxRetries: nat)

  datatype Step =
    | Fund(user: Id, m: Money)
    | RequestQuote(id: Id, user: Id, text: string, from: Asset, to: Asset, now: int)
    | BeginAccept(tx: Id, key: Id, quoteId: Id, now: int)
    | CommitAccept(tx: Id, id: Id, event: Id)
    | AbortAccept(tx: Id)
    | CleanRecords(keys: set<Id>)
    | SetMode(mode: Outcome)
    | SetOrderMode(event: Id, mode: Outcome)
    | PublishRow(event: Id, arrives: bool, confirms: bool)
    | MarkRow(event: Id, now: int)
    | ForeignMessage(payload: Payload, retries: nat)
    | Deliver(worker: Id, message: Message)
    | Handle(worker: Id, now: int)
    | HandlerThrows(worker: Id)
    | RepublishCopy(worker: Id, arrives: bool, confirms: bool)
    | Ack(worker: Id)
    | Nack(worker: Id)
    | LoseChannel(worker: Id)
    | Crash(worker: Id)
    | LoseMarker(event: Id)

  const EMPTY_DB := Db(map[], map[], map[], map[], map[], map[], map[])

  function Start(maxRetries: nat): State {
    State(EMPTY_DB, map[], multiset{}, multiset{}, map[], {}, Success, map[], map[], maxRetries)
  }

  function Without<V>(m: map<Id, V>, k: Id): (r: map<Id, V>)
    ensures forall x :: x in r <==> x in m && x != k
    ensures forall x :: x in r ==> r[x] == m[x]
  {
    map x | x in m && x != k :: m[x]
  }

  function ModeFor(s: State, event: Id): Outcome {
    if event in s.orderModes then s.orderModes[event] else s.defaultMode
  }

  /** A wallet row is created or increased from outside (seeding). */
  function DoFund(s: State, user: Id, m: Money): (t: State)
    ensures t.maxRetries == s.maxRetries
  {
    var k := WalletKey(user, m.asset);
    match UpdateRow(CreateIfMissing(s.db.wallets, k), k, Credit, m.units)
    case Ok(ws) => s.(db := s.db.(wallets := ws), funded := s.funded[k := FundedOf(s.funded, k) + m.units])
    case Err(_) => s
  }

  function DoRequestQuote(s: State, id: Id, user: Id, text: string, from: Asset, to: Asset, now: int): (t: State)
    ensures t.maxRetries == s.maxRetries && t.funded == s.funded
  {
    if id in s.db.quotes then s else
    match CreateQuote(user, text, from, to, now)
    case Err(_) => s
    case Ok(q) =>
      match SaveNewQuote(s.db.quotes, id, q)
      case Err(_) => s
      case Ok(quotes) => s.(db := s.db.(quotes := quotes))
  }

  /** tryBegin wins unless the key is stored or another open transaction holds it (that one is waited
      for); then the quote is read. A stored key is answered without any change. */
  function DoBeginAccept(s: State, tx: Id, key: Id, quoteId: Id, now: int): (t: State)
    ensures t.maxRetries == s.maxRetries && t.funded == s.funded
  {
    if tx in s.accepting || key in s.db.records || (exists t :: t in s.accepting && s.accepting[t].key == key) then s
    else
      var seen := if quoteId in s.db.quotes then Some(s.db.quotes[quoteId]) else None;
      s.(accepting := s.accepting[tx := Accepting(key, quoteId, seen, now)])
  }

  /** The rest of the transaction, on the database as it is by then. New ids are unused primary keys. */
  function DoCommitAccept(s: State, tx: Id, id: Id, event: Id): (t: State)
    ensures t.maxRetries == s.maxRetries && t.funded == s.funded
  {
    if tx !in s.accepting || id in s.db.conversions || event in s.db.outbox then s
    else
      var a := s.accepting[tx];
      s.(db := Accept(s.db, a.key, a.quoteId, a.seen, a.now, id, event).0, accepting := Without(s.accepting, tx))
  }

  /** publishBuffer: the copy may arrive with its confirmation lost, but never the other way round. */
  function DoPublishRow(s: State, event: Id, arrives: bool, confirms: bool): (t: State)
    ensures t.maxRetries == s.maxRetries && t.funded == s.funded
  {
    if event !in s.db.outbox || !arrives then s
    else s.(queue := s.queue + multiset{Message(s.db.outbox[event].payload, 0)},
            confirmed := if confirms then s.confirmed + {event} else s.confirmed)
  }

  function DoMarkRow(s: State, event: Id, now: int): (t: State)
    ensures t.maxRetries == s.maxRetries && t.funded == s.funded
  {
    if event !in s.confirmed || event !in s.db.outbox || s.db.outbox[event].publishedAt.Some? then s
    else s.(db := s.db.(outbox := s.db.outbox[event := s.db.outbox[event].(publishedAt := Some(now))]))
  }

  function DoDeliver(s: State, w: Id, m: Message): (t: State)
    ensures t.maxRetries == s.maxRetries && t.funded == s.funded
  {
    if w in s.workers || m !in s.queue then s
    else s.(queue := s.queue - multiset{m}, workers := s.workers[w := Worker(m, Received, true)])
  }

  function DoHandle(s: State, w: Id, now: int): (t: State)
    ensures t.maxRetries == s.maxRetries && t.funded == s.funded
  {
    if w !in s.workers || !InHandler(s.workers[w].pc) then s
    else
      var x := s.workers[w];
      var (db, pc) := HandlerStep(s.db, x.message.payload, x.pc, ModeFor(s, x.message.payload.eventId), now);
      s.(db := db, workers := s.workers[w := x.(pc := pc)])
  }

  /** Any database interaction may fail, and then nothing of it has happened. */
  function DoHandlerThrows(s: State, w: Id): (t: State)
    ensures t.maxRetries == s.maxRetries && t.funded == s.funded
  {
    if w !in s.workers || !InHandler(s.workers[w].pc) then s
    else s.(workers := s.workers[w := s.workers[w].(pc := Failing(StorageFailure))])
  }

  /** The failure path is due: the handler rejected, or it resolved but acking threw. */
  predicate MayRepublish(pc: Pc) {
    pc.Failing? || pc.Returned?
  }

  /** handleConsumerFailure, publication: a retry copy while retries remain, else a dead letter. */
  function DoRepublishCopy(s: State, w: Id, arrives: bool, confirms: bool): (t: State)
    ensures t.maxRetries == s.maxRetries && t.funded == s.funded
  {
    if w !in s.workers || !MayRepublish(s.workers[w].pc) then s
    else
      var m := s.workers[w].message;
      var pc := if arrives && confirms then Republished else Nacking;
      var moved := s.(workers := s.workers[w := s.workers[w].(pc := pc)]);
      if !arrives then moved
      else if m.retries < s.maxRetries then
        moved.(queue := s.queue + multiset{Message(m.payload, m.retries + 1)})
      else moved.(deadLetters := s.deadLetters + multiset{m})
  }

  function DoAck(s: State, w: Id): (t: State)
    ensures t.maxRetries == s.maxRetries && t.funded == s.funded
  {
    if w in s.workers && (s.workers[w].pc.Returned? || s.workers[w].pc.Republished?)
    then s.(workers := Without(s.workers, w))
    else s
  }

  /** Back into the queue, if the broker still waits for this delivery. */
  function Requeued(s: State, w: Id): multiset<Message>
    requires w in s.workers
  {
    if s.workers[w].attached then s.queue + multiset{s.workers[w].message} else s.queue
  }

  function DoNack(s: State, w: Id): (t: State)
    ensures t.maxRetries == s.maxRetries && t.funded == s.funded
  {
    if w in s.workers && s.workers[w].pc.Nacking?
    then s.(queue := Requeued(s, w), workers := Without(s.workers, w))
    else s
  }

  function DoLoseChannel(s: State, w: Id): (t: State)
    ensures t.maxRetries == s.maxRetries && t.funded == s.funded
  {
    if w !in s.workers then s
    else s.(queue := Requeued(s, w), workers := s.workers[w := s.workers[w].(attached := false)])
  }

  function DoCrash(s: State, w: Id): (t: State)
    ensures t.maxRetries == s.maxRetries && t.funded == s.funded
  {
    if w !in s.workers then s
    else s.(queue := Requeued(s, w), workers := Without(s.workers, w))
  }

  function Do(s: State, step: Step): (t: State)
    ensures t.maxRetries == s.maxRetries && (step.Fund? || t.funded == s.funded)
  {
    match step
    case Fund(user, m) => DoFund(s, user, m)
    case RequestQuote(id, user, text, from, to, now) => DoRequestQuote(s, id, user, text, from, to, now)
    case BeginAccept(tx, key, quoteId, now) => DoBeginAccept(s, tx, key, quoteId, now)
    case CommitAccept(tx, id, event) => DoCommitAccept(s, tx, id, event)
    case AbortAccept(tx) => s.(accepting := Without(s.accepting, tx))
    case CleanRecords(keys) => s.(db := s.db.(records := s.db.records - keys))
    case SetMode(mode) => s.(defaultMode := mode)
    case SetOrderMode(event, mode) => s.(orderModes := s.orderModes[event := mode])
    case PublishRow(event, arrives, confirms) => DoPublishRow(s, event, arrives, confirms)
    case MarkRow(event, now) => DoMarkRow(s, event, now)
    case ForeignMessage(p, retries) => s.(queue := s.queue + multiset{Message(p, retries)})
    case Deliver(w, m) => DoDeliver(s, w, m)
    case Handle(w, now) => DoHandle(s, w, now)
    case HandlerThrows(w) => DoHandlerThrows(s, w)
    case RepublishCopy(w, arrives, confirms) => DoRepublishCopy(s, w, arrives, confirms)
    case Ack(w) => DoAck(s, w)
    case Nack(w) => DoNack(s, w)
    case LoseChannel(w) => DoLoseChannel(s, w)
    case Crash(w) => DoCrash(s, w)
    case LoseMarker(event) => s.(db := s.db.(markers := Without(s.db.markers, event)))
  }

  /** What the environment does to the database: it ends a transaction without a trace and forgets records and
      markers, and changes nothing else. */
  lemma EnvironmentSteps(s: State, keys: set<Id>, k: Id)
    ensures Do(s, AbortAccept(k)) == s.(accepting := s.accepting - {k})
    ensures Do(s, CleanRecords(keys)) == s.(db := s.db.(records := s.db.records - keys))
    ensures Do(s, LoseMarker(k)) == s.(db := s.db.(markers := s.db.markers - {k}))
  {
    hide DoFund, DoRequestQuote, DoBeginAccept, DoCommitAccept, DoPublishRow, DoMarkRow, DoDeliver, DoHandle;
    hide DoRepublishCopy, DoAck, DoNack, DoLoseChannel, DoCrash, DoHandlerThrows;
    assert Without(s.accepting, k) == s.accepting - {k};
    assert Without(s.db.markers, k) == s.db.markers - {k};
  }

  /** To the exchange and the broker: it has new orders answered otherwise, each by its own mode if it has one, and
      it injects messages. */
  lemma OutsideSteps(s: State, mode: Outcome, k: Id, p: Payload, retries: nat)
    ensures var t := Do(s, SetMode(mode));
            && t == s.(defaultMode := t.defaultMode)
            && forall e :: ModeFor(t, e) == if e in s.orderModes then ModeFor(s, e) else mode
    ensures var t := Do(s, SetOrderMode(k, mode));
            && t == s.(orderModes := t.orderModes)
            && forall e :: ModeFor(t, e) == if e == k then mode else ModeFor(s, e)
    ensures Do(s, ForeignMessage(p, retries)) == s.(queue := s.queue + multiset{Message(p, retries)})
  {
    hide DoFund, DoRequestQuote, DoBeginAccept, DoCommitAccept, DoPublishRow, DoMarkRow, DoDeliver, DoHandle;
    hide DoRepublishCopy, DoAck, DoNack, DoLoseChannel, DoCrash, DoHandlerThrows;
  }

  lemma DeliveryIs(s: State, w: Id, m: Message)
    ensures Do(s, Deliver(w, m)) == DoDeliver(s, w, m) && Do(s, HandlerThrows(w)) == DoHandlerThrows(s, w)
    ensures Do(s, LoseChannel(w)) == DoLoseChannel(s, w)
  {
    hide DoFund, DoRequestQuote, DoBeginAccept, DoCommitAccept, DoPublishRow, DoMarkRow, DoDeliver, DoHandle;
    hide DoRepublishCopy, DoAck, DoNack, DoLoseChannel, DoCrash, DoHandlerThrows;
  }

  lemma LeavingIs(s: State, w: Id)
    ensures Do(s, Crash(w)) == DoCrash(s, w) && Do(s, Nack(w)) == DoNack(s, w) && Do(s, Ack(w)) == DoAck(s, w)
  {
    hide DoFund, DoRequestQuote, DoBeginAccept, DoCommitAccept, DoPublishRow, DoMarkRow, DoDeliver, DoHandle;
    hide DoRepublishCopy, DoAck, DoNack, DoLoseChannel, DoCrash, DoHandlerThrows;
  }

  /** One copy leaves the queue for a free worker, which starts from the beginning; a lost channel puts it back once
      and leaves the handler at work; an interaction that fails ends the handler there. */
  lemma DeliverySteps(s: State, w: Id, m: Message)
    ensures Do(s, Deliver(w, m)) == if w in s.workers || m !in s.queue then s
                                    else s.(queue := s.queue - multiset{m},
                                            workers := s.workers[w := Worker(m, Received, true)])
    ensures w in s.workers ==>
              var x := s.workers[w];
              && Do(s, LoseChannel(w)) == s.(queue := if x.attached then s.queue + multiset{x.message} else s.queue,
                                             workers := s.workers[w := Worker(x.message, x.pc, false)])
              && (InHandler(x.pc) ==>
                    Do(s, HandlerThrows(w))
                    == s.(workers := s.workers[w := Worker(x.message, Failing(StorageFailure), x.attached)]))
  {
    hide Do;
    DeliveryIs(s, w, m);
  }

  /** A crash or a nack ends a delivery and returns its copy, unless the broker has it back already; an ack ends it
      for good, and only after the handler resolved or its copy was confirmed. */
  lemma LeavingSteps(s: State, w: Id)
    requires w in s.workers
    ensures var x := s.workers[w];
            var back := if x.attached then s.queue + multiset{x.message} else s.queue;
            && Do(s, Crash(w)) == s.(queue := back, workers := s.workers - {w})
            && Do(s, Nack(w)) == (if x.pc.Nacking? then s.(queue := back, workers := s.workers - {w}) else s)
            && Do(s, Ack(w)) == if x.pc.Returned? || x.pc.Republished? then s.(workers := s.workers - {w}) else s
  {
    hide Do, Without;
    LeavingIs(s, w);
    assert Without(s.workers, w) == s.workers - {w};
  }

  /** The state after a run. */
  function Run(s: State, steps: seq<Step>): State {
    if steps == [] then s else Do(Run(s, steps[..|steps| - 1]), steps[|steps| - 1])
  }

  lemma {:induction false} RunConcat(s: State, a: seq<Step>, b: seq<Step>)
    ensures Run(s, a + b) == Run(Run(s, a), b)
  {
    hide Do;
    if b == [] {
      assert a + b == a;
    } else {
      RunConcat(s, a, b[..|b| - 1]);
      assert (a + b)[..|a + b| - 1] == a + b[..|b| - 1];
    }
  }

  lemma NoSteps(s: State)
    ensures Run(s, []) == s
  {
    hide Do;
  }

  lemma OneStep(s: State, step: Step)
    ensures Run(s, [step]) == Do(s, step)
  {
    hide Do;
    assert [step][..0] == [];
    NoSteps(s);
  }

  lemma TwoSteps(s: State, a: Step, b: Step)
    ensures Run(s, [a, b]) == Do(Do(s, a), b)
  {
    hide Do;
    assert [a, b][..1] == [a];
    OneStep(s, a);
  }
}
