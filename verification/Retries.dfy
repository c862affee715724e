/** Retries, over every run: counts are bounded, and a message that keeps failing ends as a dead letter. */
module Retries {
  import opened Common
  import opened Pricing
  import opened Transactions
  import opened Execution
  import opened Protocol
  import opened StepProof
  import opened Guarantees

  /** A count a copy may carry: at most the limit, or the one a foreign producer injected it with. */
  predicate Allowed(m: Message, limit: nat, foreign: set<Message>) {
    m.retries <= limit || m in foreign
  }

  /** And a dead letter's: exactly the limit, or one above it that it was injected with. */
  predicate AllowedDead(m: Message, limit: nat, foreign: set<Message>) {
    m.retries == limit || (m.retries > limit && m in foreign)
  }

  ghost predicate QueueWithin(ms: multiset<Message>, limit: nat, foreign: set<Message>) {
    forall m :: m in ms ==> Allowed(m, limit, foreign)
  }

  ghost predicate DeadAt(ms: multiset<Message>, limit: nat, foreign: set<Message>) {
    forall m :: m in ms ==> AllowedDead(m, limit, foreign)
  }

  predicate WorkersWithin(workers: map<Id, Worker>, limit: nat, foreign: set<Message>) {
    forall w :: w in workers ==> Allowed(workers[w].message, limit, foreign)
  }

  ghost predicate RetriesBounded(s: State, foreign: set<Message>) {
    && QueueWithin(s.queue, s.maxRetries, foreign) && DeadAt(s.deadLetters, s.maxRetries, foreign)
    && WorkersWithin(s.workers, s.maxRetries, foreign)
  }

  lemma CopyWithin(ms: multiset<Message>, m: Message, limit: nat, foreign: set<Message>)
    ensures QueueWithin(ms, limit, foreign) && Allowed(m, limit, foreign) ==> QueueWithin(ms + multiset{m}, limit,
                                                                                          foreign)
    ensures DeadAt(ms, limit, foreign) && AllowedDead(m, limit, foreign) ==> DeadAt(ms + multiset{m}, limit, foreign)
    ensures QueueWithin(ms, limit, foreign) ==> QueueWithin(ms - multiset{m}, limit, foreign)
  {
    hide Allowed, AllowedDead;
    assert forall x :: x in ms + multiset{m} <==> x in ms || x == m;
  }

  lemma WorkerWithin(workers: map<Id, Worker>, w: Id, x: Worker, limit: nat, foreign: set<Message>)
    requires WorkersWithin(workers, limit, foreign) && Allowed(x.message, limit, foreign)
    ensures WorkersWithin(workers[w := x], limit, foreign) && WorkersWithin(Without(workers, w), limit, foreign)
    ensures w in workers ==> Allowed(workers[w].message, limit, foreign)
  {
  }

  lemma HandlingStaysBounded(s: State, w: Id, now: int, foreign: set<Message>)
    requires RetriesBounded(s, foreign) && w in s.workers
    ensures RetriesBounded(DoHandle(s, w, now), foreign) && RetriesBounded(DoHandlerThrows(s, w), foreign)
  {
    hide HandlerStep, ModeFor, QueueWithin, DeadAt;
  }

  lemma RepublishingStaysBounded(s: State, w: Id, arrives: bool, confirms: bool, foreign: set<Message>)
    requires RetriesBounded(s, foreign) && w in s.workers
    ensures RetriesBounded(DoRepublishCopy(s, w, arrives, confirms), foreign)
  {
    hide QueueWithin, DeadAt, WorkersWithin;
    var x := s.workers[w];
    WorkerWithin(s.workers, w, x.(message := Message(x.message.payload, 0)), s.maxRetries, foreign);
    WorkerWithin(s.workers, w, x.(pc := Republished), s.maxRetries, foreign);
    WorkerWithin(s.workers, w, x.(pc := Nacking), s.maxRetries, foreign);
    CopyWithin(s.queue, Message(x.message.payload, x.message.retries + 1), s.maxRetries, foreign);
    CopyWithin(s.deadLetters, x.message, s.maxRetries, foreign);
  }

  lemma DeliveryStaysBounded(s: State, w: Id, m: Message, foreign: set<Message>)
    requires RetriesBounded(s, foreign)
    ensures RetriesBounded(DoDeliver(s, w, m), foreign)
  {
    hide DeadAt;
    CopyWithin(s.queue, m, s.maxRetries, foreign);
  }

  lemma ReturningStaysBounded(s: State, w: Id, foreign: set<Message>)
    requires RetriesBounded(s, foreign) && w in s.workers
    ensures RetriesBounded(DoAck(s, w), foreign) && RetriesBounded(DoNack(s, w), foreign)
    ensures RetriesBounded(DoLoseChannel(s, w), foreign) && RetriesBounded(DoCrash(s, w), foreign)
  {
    hide QueueWithin, DeadAt, WorkersWithin, Without;
    var x := s.workers[w];
    WorkerWithin(s.workers, w, x.(message := Message(x.message.payload, 0)), s.maxRetries, foreign);
    WorkerWithin(s.workers, w, x.(attached := false), s.maxRetries, foreign);
    CopyWithin(s.queue, x.message, s.maxRetries, foreign);
  }

  lemma WorkersStayBounded(s: State, step: Step, foreign: set<Message>)
    requires RetriesBounded(s, foreign)
    requires (step.Handle? || step.HandlerThrows? || step.RepublishCopy?) && step.worker in s.workers
    ensures RetriesBounded(Do(s, step), foreign)
  {
    hide DoHandle, DoHandlerThrows, DoRepublishCopy, RetriesBounded;
    match step
    case Handle(w, now) => HandlingStaysBounded(s, w, now, foreign);
    case HandlerThrows(w) => HandlingStaysBounded(s, w, 0, foreign);
    case RepublishCopy(w, arrives, confirms) => RepublishingStaysBounded(s, w, arrives, confirms, foreign);
  }

  lemma LeaversStayBounded(s: State, step: Step, foreign: set<Message>)
    requires RetriesBounded(s, foreign)
    requires (step.Ack? || step.Nack? || step.LoseChannel? || step.Crash?) && step.worker in s.workers
    ensures RetriesBounded(Do(s, step), foreign)
  {
    hide DoAck, DoNack, DoLoseChannel, DoCrash, RetriesBounded;
    ReturningStaysBounded(s, step.worker, foreign);
  }

  /** Steps that put no message anywhere. */
  lemma OthersKeepMessages(s: State, step: Step)
    requires !WorkerStep(step) && !step.ForeignMessage? && !step.PublishRow?
    ensures var t := Do(s, step); t.queue == s.queue && t.deadLetters == s.deadLetters && t.workers == s.workers
  {
    hide CreateQuote, SaveNewQuote, Accept, Without;
    hide DoDeliver, DoHandle, DoHandlerThrows, DoRepublishCopy, DoAck, DoNack, DoLoseChannel, DoCrash, DoPublishRow;
  }

  lemma ArrivalsStayBounded(s: State, event: Id, arrives: bool, confirms: bool, foreign: set<Message>)
    requires RetriesBounded(s, foreign)
    ensures RetriesBounded(DoPublishRow(s, event, arrives, confirms), foreign)
  {
    hide QueueWithin, DeadAt, WorkersWithin;
    if event in s.db.outbox {
      CopyWithin(s.queue, Message(s.db.outbox[event].payload, 0), s.maxRetries, foreign);
    }
  }

  lemma RetriesStayBounded(s: State, step: Step, foreign: set<Message>)
    requires RetriesBounded(s, foreign) && (step.ForeignMessage? ==> Message(step.payload, step.retries) in foreign)
    ensures RetriesBounded(Do(s, step), foreign)
  {
    hide DoDeliver, DoHandle, DoHandlerThrows, DoRepublishCopy, DoAck, DoNack, DoLoseChannel, DoCrash, Without;
    hide DoFund, DoRequestQuote, DoBeginAccept, DoCommitAccept, DoMarkRow, DoPublishRow, QueueWithin, DeadAt;
    hide WorkersWithin;
    if WorkerStep(step) {
      if step.Deliver? {
        DeliveryStaysBounded(s, step.worker, step.message, foreign);
      } else if step.worker !in s.workers {
        AbsentWorkersDoNothing(s, step);
      } else if step.Handle? || step.HandlerThrows? || step.RepublishCopy? {
        WorkersStayBounded(s, step, foreign);
      } else {
        LeaversStayBounded(s, step, foreign);
      }
    } else if step.PublishRow? {
      ArrivalsStayBounded(s, step.event, step.arrives, step.confirms, foreign);
    } else if step.ForeignMessage? {
      CopyWithin(s.queue, Message(step.payload, step.retries), s.maxRetries, foreign);
    } else {
      OthersKeepMessages(s, step);
    }
  }

  lemma AbsentWorkersDoNothing(s: State, step: Step)
    requires WorkerStep(step) && !step.Deliver? && step.worker !in s.workers
    ensures Do(s, step) == s
  {
    hide HandlerStep, Without, Requeued;
  }

  /** The copies foreign producers injected during a run. */
  function Injected(steps: seq<Step>): set<Message> {
    set i | 0 <= i < |steps| && steps[i].ForeignMessage? :: Message(steps[i].payload, steps[i].retries)
  }

  lemma {:induction false} RunStaysBounded(maxRetries: nat, steps: seq<Step>, foreign: set<Message>)
    requires Injected(steps) <= foreign
    ensures After(maxRetries, steps).maxRetries == maxRetries && RetriesBounded(After(maxRetries, steps), foreign)
  {
    hide Do;
    if steps == [] {
    } else {
      var init, step := steps[..|steps| - 1], steps[|steps| - 1];
      assert Injected(init) <= Injected(steps);
      assert step.ForeignMessage? ==> Message(step.payload, step.retries) in Injected(steps);
      RunStaysBounded(maxRetries, init, foreign);
      RetriesStayBounded(After(maxRetries, init), step, foreign);
    }
  }

  /** After every run: a copy in the main queue or with a worker was republished at most `maxRetries` times,
      unless it is an injected copy as it came; a dead letter carries exactly that count, unless it was
      injected with a higher one. */
  lemma RetriesAreBounded(maxRetries: nat, steps: seq<Step>, m: Message)
    ensures var s := After(maxRetries, steps);
            && (m in s.queue || (exists w :: w in s.workers && s.workers[w].message == m) ==>
                  m.retries <= maxRetries || m in Injected(steps))
            && (m in s.deadLetters ==> m.retries == maxRetries || (m.retries > maxRetries && m in Injected(steps)))
  {
    hide After, Injected;
    RunStaysBounded(maxRetries, steps, Injected(steps));
  }

  /** So where foreign producers respect the limit, no count exceeds it and every dead letter is at it. */
  lemma OwnRetriesAreBounded(maxRetries: nat, steps: seq<Step>, m: Message)
    requires forall i :: 0 <= i < |steps| && steps[i].ForeignMessage? ==> steps[i].retries <= maxRetries
    ensures var s := After(maxRetries, steps);
            && (m in s.queue || (exists w :: w in s.workers && s.workers[w].message == m) ==> m.retries <= maxRetries)
            && (m in s.deadLetters ==> m.retries == maxRetries)
  {
    hide After;
    RetriesAreBounded(maxRetries, steps, m);
  }

  // ----- a message that keeps failing

  /** Handler steps of one worker, in any number and order. */
  predicate HandledBy(w: Id, handling: seq<Step>) {
    forall i :: 0 <= i < |handling| ==> (handling[i].Handle? || handling[i].HandlerThrows?) && handling[i].worker == w
  }

  predicate Fails(s: State, w: Id, m: Message, handling: seq<Step>) {
    && HandledBy(w, handling)
    && var t := Run(DoDeliver(s, w, m), handling);
    && w in t.workers && t.workers[w].pc.Failing?
  }

  /** One failed attempt, with its publication confirmed: the source publishes the copy, then acks. */
  function AttemptSteps(w: Id, m: Message, handling: seq<Step>): seq<Step> {
    [Deliver(w, m)] + handling + [RepublishCopy(w, true, true), Ack(w)]
  }

  lemma OneHandlerStep(s: State, w: Id, step: Step)
    requires HandledBy(w, [step]) && w in s.workers
    ensures var t := Do(s, step);
            && t == s.(db := t.db, workers := t.workers) && w in t.workers
            && t.workers == s.workers[w := t.workers[w]] && t.workers[w].message == s.workers[w].message
  {
    hide HandlerStep, ModeFor;
    assert [step][0] == step;
    assert s.workers[w := s.workers[w]] == s.workers;
  }

  lemma {:induction false} HandlingKeepsBroker(s: State, w: Id, handling: seq<Step>)
    requires HandledBy(w, handling) && w in s.workers
    ensures var t := Run(s, handling);
            && t == s.(db := t.db, workers := t.workers) && w in t.workers
            && t.workers == s.workers[w := t.workers[w]] && t.workers[w].message == s.workers[w].message
  {
    hide Do;
    if handling == [] {
      assert s.workers[w := s.workers[w]] == s.workers;
    } else {
      var k := |handling| - 1;
      HandlingKeepsBroker(s, w, handling[..k]);
      OneHandlerStep(Run(s, handling[..k]), w, handling[k]);
    }
  }

  lemma StepsOfAttempt(s: State, u: State, w: Id, m: Message)
    ensures Do(s, Deliver(w, m)) == DoDeliver(s, w, m)
    ensures Do(Do(u, RepublishCopy(w, true, true)), Ack(w)) == DoAck(DoRepublishCopy(u, w, true, true), w)
  {
    hide DoDeliver, DoRepublishCopy, DoAck;
  }

  lemma RunOfAttempt(s: State, w: Id, m: Message, handling: seq<Step>)
    ensures Run(s, AttemptSteps(w, m, handling))
         == DoAck(DoRepublishCopy(Run(DoDeliver(s, w, m), handling), w, true, true), w)
  {
    hide Do, Run;
    StepsOfAttempt(s, Run(DoDeliver(s, w, m), handling), w, m);
    RunConcat(s, [Deliver(w, m)] + handling, [RepublishCopy(w, true, true), Ack(w)]);
    RunConcat(s, [Deliver(w, m)], handling);
    OneStep(s, Deliver(w, m));
    var u := Run(s, [Deliver(w, m)] + handling);
    RunConcat(u, [RepublishCopy(w, true, true)], [Ack(w)]);
    OneStep(u, RepublishCopy(w, true, true));
    OneStep(Run(u, [RepublishCopy(w, true, true)]), Ack(w));
    assert [RepublishCopy(w, true, true), Ack(w)] == [RepublishCopy(w, true, true)] + [Ack(w)];
  }

  lemma Republishing(u: State, w: Id)
    requires w in u.workers && u.workers[w].pc.Failing?
    ensures var t := DoRepublishCopy(u, w, true, true);
            var m := u.workers[w].message;
            && t.workers == u.workers[w := u.workers[w].(pc := Republished)]
            && t.queue == (if m.retries < u.maxRetries then u.queue + multiset{Message(m.payload,
                                                                                       m.retries + 1)} else u.queue)
            && t.deadLetters == (if m.retries < u.maxRetries then u.deadLetters else u.deadLetters + multiset{m})
  {
  }

  lemma Acking(u: State, w: Id)
    requires w in u.workers && u.workers[w].pc.Republished?
    ensures DoAck(u, w) == u.(workers := Without(u.workers, w))
  {
    hide Without;
  }

  lemma Gone(workers: map<Id, Worker>, w: Id, x: Worker, y: Worker, z: Worker)
    requires w !in workers
    ensures Without(workers[w := x][w := y][w := z], w) == workers
  {
  }

  /** The main queue after `k` failed attempts on `m`: a copy `k` counts higher, or none after the last. */
  function QueueAfterFailures(queue: multiset<Message>, m: Message, k: nat, limit: nat): multiset<Message> {
    var rest := queue - multiset{m};
    if m.retries + k <= limit then rest + multiset{Message(m.payload, m.retries + k)} else rest
  }

  /** The dead letters after them: `m`, at the limit, after the last. */
  function DeadLettersAfterFailures(dead: multiset<Message>, m: Message, k: nat, limit: nat): multiset<Message> {
    if m.retries + k <= limit then dead else dead + multiset{Message(m.payload, limit)}
  }

  /** And nothing else has moved. */
  ghost predicate AfterFailures(s: State, t: State, m: Message, k: nat) {
    && t.workers == s.workers && t.maxRetries == s.maxRetries
    && t.queue == QueueAfterFailures(s.queue, m, k, s.maxRetries)
    && t.deadLetters == DeadLettersAfterFailures(s.deadLetters, m, k, s.maxRetries)
  }

  lemma LeavingState(s: State, w: Id, m: Message, u: State)
    requires w !in s.workers && m.retries <= s.maxRetries
    requires u.queue == s.queue - multiset{m} && u.deadLetters == s.deadLetters && u.maxRetries == s.maxRetries
    requires w in u.workers && u.workers[w].message == m && u.workers[w].pc.Failing?
    requires Without(u.workers[w := u.workers[w].(pc := Republished)], w) == s.workers
    ensures AfterFailures(s, DoAck(DoRepublishCopy(u, w, true, true), w), m, 1)
  {
    hide DoRepublishCopy, DoAck, Without;
    Republishing(u, w);
    Acking(DoRepublishCopy(u, w, true, true), w);
  }

  /** A failed attempt moves its message on: to the next count, or from the last one to the dead letters. */
  lemma FailedAttempt(s: State, w: Id, m: Message, handling: seq<Step>)
    requires w !in s.workers && m in s.queue && m.retries <= s.maxRetries && Fails(s, w, m, handling)
    ensures AfterFailures(s, Run(s, AttemptSteps(w, m, handling)), m, 1)
  {
    hide Do, Run, DoRepublishCopy, DoAck, Without, AttemptSteps, HandledBy, AfterFailures;
    RunOfAttempt(s, w, m, handling);
    var d := DoDeliver(s, w, m);
    HandlingKeepsBroker(d, w, handling);
    var u := Run(d, handling);
    Gone(s.workers, w, Worker(m, Received, true), u.workers[w], u.workers[w].(pc := Republished));
    LeavingState(s, w, m, u);
  }

  /** Attempts one after another, each on the copy the one before left. */
  function AllAttemptSteps(w: Id, m: Message, handlings: seq<seq<Step>>): seq<Step>
    decreases |handlings|
  {
    if handlings == [] then []
    else AttemptSteps(w, m, handlings[0]) + AllAttemptSteps(w, Message(m.payload, m.retries + 1), handlings[1..])
  }

  predicate AllFail(s: State, w: Id, m: Message, handlings: seq<seq<Step>>)
    decreases |handlings|
  {
    handlings == [] ||
    (Fails(s, w, m, handlings[0])
     && AllFail(Run(s, AttemptSteps(w, m, handlings[0])), w, Message(m.payload, m.retries + 1), handlings[1..]))
  }

  /** However its handlings fail, a message that fails every time stays in the main queue, one count
      higher after each attempt, until the attempt with count maxRetries; after maxRetries - count + 1
      attempts it has left the queue for good, as one dead letter. */
  lemma {:induction false} FailingMessageLeavesTheQueue(s: State, w: Id, m: Message, handlings: seq<seq<Step>>)
    requires w !in s.workers && m in s.queue && m.retries <= s.maxRetries
    requires |handlings| <= s.maxRetries - m.retries + 1 && AllFail(s, w, m, handlings)
    ensures AfterFailures(s, Run(s, AllAttemptSteps(w, m, handlings)), m, |handlings|)
    decreases |handlings|
  {
    hide Do, Run, Fails, AttemptSteps, AfterFailures;
    if handlings == [] {
      NoSteps(s);
      NoFailures(s, m);
    } else {
      var next := Message(m.payload, m.retries + 1);
      FailedAttempt(s, w, m, handlings[0]);
      var t := Run(s, AttemptSteps(w, m, handlings[0]));
      RunConcat(s, AttemptSteps(w, m, handlings[0]), AllAttemptSteps(w, next, handlings[1..]));
      if m.retries < s.maxRetries {
        OneFailure(s, t, m);
        FailingMessageLeavesTheQueue(t, w, next, handlings[1..]);
        OneMoreFailure(s, t, Run(t, AllAttemptSteps(w, next, handlings[1..])), m, |handlings| - 1);
      } else {
        assert handlings[1..] == [];
        NoSteps(t);
      }
    }
  }

  lemma NoFailures(s: State, m: Message)
    requires m in s.queue && m.retries <= s.maxRetries
    ensures AfterFailures(s, s, m, 0)
  {
    assert s.queue - multiset{m} + multiset{m} == s.queue;
  }

  lemma OneFailure(s: State, t: State, m: Message)
    requires AfterFailures(s, t, m, 1) && m.retries < s.maxRetries
    ensures Message(m.payload, m.retries + 1) in t.queue && t.workers == s.workers && t.maxRetries == s.maxRetries
  {
  }

  lemma OneMoreFailure(s: State, t: State, u: State, m: Message, k: nat)
    requires m.retries < s.maxRetries
    requires AfterFailures(s, t, m, 1) && AfterFailures(t, u, Message(m.payload, m.retries + 1), k)
    ensures AfterFailures(s, u, m, k + 1)
  {
    hide QueueAfterFailures, DeadLettersAfterFailures;
    QueueChains(s.queue, m, k, s.maxRetries);
    DeadLettersChain(s.deadLetters, m, k, s.maxRetries);
  }

  lemma QueueChains(q: multiset<Message>, m: Message, k: nat, limit: nat)
    requires m.retries < limit
    ensures QueueAfterFailures(QueueAfterFailures(q, m, 1, limit), Message(m.payload, m.retries + 1), k, limit)
         == QueueAfterFailures(q, m, k + 1, limit)
  {
    hide QueueAfterFailures;
    var next, rest := Message(m.payload, m.retries + 1), q - multiset{m};
    OneAfter(q, m, limit);
    Retaken(rest, next);
    SameRest(rest + multiset{next}, next, q, m, k, limit);
  }

  lemma OneAfter(q: multiset<Message>, m: Message, limit: nat)
    requires m.retries < limit
    ensures QueueAfterFailures(q, m, 1, limit) == q - multiset{m} + multiset{Message(m.payload, m.retries + 1)}
  {
  }

  lemma SameRest(p: multiset<Message>, n: Message, q: multiset<Message>, m: Message, k: nat, limit: nat)
    requires p - multiset{n} == q - multiset{m} && n == Message(m.payload, m.retries + 1)
    ensures QueueAfterFailures(p, n, k, limit) == QueueAfterFailures(q, m, k + 1, limit)
  {
    assert Message(n.payload, n.retries + k) == Message(m.payload, m.retries + (k + 1));
  }

  lemma DeadLettersChain(dead: multiset<Message>, m: Message, k: nat, limit: nat)
    requires m.retries < limit
    ensures DeadLettersAfterFailures(DeadLettersAfterFailures(dead, m, 1, limit), Message(m.payload,
                                                                                          m.retries + 1), k, limit)
         == DeadLettersAfterFailures(dead, m, k + 1, limit)
  {
  }

  lemma Retaken<T>(q: multiset<T>, n: T)
    ensures q + multiset{n} - multiset{n} == q
  {
  }
}
