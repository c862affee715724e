/**
  What bounds the failures of a message, over every interleaving of any number of workers: each copy has a
  budget of handler runs, one less per republication, and every failed run is paid from it.
*/
module Budgets {
  import opened Common
  import opened Sums
  import opened Tables
  import opened Execution
  import opened Protocol
  import opened StateProof
  import opened StepProof
  import opened Retries

  /** Handler runs a copy may still fail before it is a dead letter: maxRetries - count + 1, and the one run of
      a copy that a foreign producer counted beyond the limit. */
  function Weight(m: Message, p: Payload, limit: nat): nat {
    if m.payload != p then 0 else if m.retries <= limit then limit + 1 - m.retries else 1
  }

  /** The same for a copy in a worker's hands: a failed run is spent, and a confirmed republication has passed
      the rest on. */
  function HeldWeight(x: Worker, p: Payload, limit: nat): (n: nat)
    ensures n <= Weight(x.message, p, limit)
  {
    if x.pc.Republished? then 0
    else if x.pc.Failing? && x.message.payload == p then Weight(x.message, p, limit) - 1
    else Weight(x.message, p, limit)
  }

  function Weigher(p: Payload, limit: nat): Message -> nat {
    (m: Message) => Weight(m, p, limit)
  }

  function Holder(p: Payload, limit: nat): Worker -> nat {
    (x: Worker) => HeldWeight(x, p, limit)
  }

  ghost function Queued(q: multiset<Message>, p: Payload, limit: nat): nat {
    Sum(q, Weigher(p, limit))
  }

  ghost function Held(workers: map<Id, Worker>, p: Payload, limit: nat): nat {
    SumValues(workers, Holder(p, limit))
  }

  /** All copies of a payload outside the dead letters. */
  ghost function Budget(s: State, p: Payload): nat {
    Queued(s.queue, p, s.maxRetries) + Held(s.workers, p, s.maxRetries)
  }

  // ----- how the sums move

  lemma QueueAdds(q: multiset<Message>, m: Message, p: Payload, limit: nat)
    ensures Queued(q + multiset{m}, p, limit) == Queued(q, p, limit) + Weight(m, p, limit)
  {
    hide Weight;
    SumAdd(q, Weigher(p, limit), m);
  }

  lemma QueueTakes(q: multiset<Message>, m: Message, p: Payload, limit: nat)
    requires m in q
    ensures Queued(q, p, limit) == Weight(m, p, limit) + Queued(q - multiset{m}, p, limit)
  {
    hide Weight;
    SumSplit(q, Weigher(p, limit), m);
  }

  lemma WorkerSets(workers: map<Id, Worker>, w: Id, x: Worker, p: Payload, limit: nat)
    ensures Held(workers[w := x], p, limit) == HeldWeight(x, p, limit) + Held(Without(workers, w), p, limit)
    ensures Held(workers, p, limit) == (if w in workers then HeldWeight(workers[w], p, limit) else 0)
                                       + Held(Without(workers, w), p, limit)
  {
    hide Weight, HeldWeight;
    SumValuesUpdate(workers, Holder(p, limit), w, x);
    assert workers - {w} == Without(workers, w);
    if w in workers {
      SumValuesSplit(workers, Holder(p, limit), w);
    } else {
      assert Without(workers, w) == workers;
    }
  }

  // ----- what a step costs and what it adds

  /** A handler run on a copy of `p` ends in failure. */
  predicate FailsRun(s: State, step: Step, p: Payload) {
    && (step.Handle? || step.HandlerThrows?) && step.worker in s.workers && InHandler(s.workers[step.worker].pc)
    && s.workers[step.worker].message.payload == p
    && step.worker in Do(s, step).workers && Do(s, step).workers[step.worker].pc.Failing?
  }

  /** What a step adds to the budget: new copies, copies that arrived without their confirmation, and failed
      runs that are forgotten because the copy goes back with its old count. */
  function Fault(s: State, step: Step, p: Payload): nat {
    match step
    case PublishRow(event, arrives, _) =>
      if arrives && event in s.db.outbox then Weight(Message(s.db.outbox[event].payload, 0), p, s.maxRetries) else 0
    case ForeignMessage(q, retries) => Weight(Message(q, retries), p, s.maxRetries)
    case RepublishCopy(w, arrives, confirms) =>
      if w !in s.workers || !MayRepublish(s.workers[w].pc) || (arrives && confirms) then 0
      else
        var x := s.workers[w];
        Weight(x.message, p, s.maxRetries) - HeldWeight(x, p, s.maxRetries)
        + (if arrives && x.message.retries < s.maxRetries
           then Weight(Message(x.message.payload, x.message.retries + 1), p, s.maxRetries) else 0)
    case LoseChannel(w) =>
      if w in s.workers && s.workers[w].attached then Weight(s.workers[w].message, p, s.maxRetries) else 0
    case Crash(w) =>
      if w in s.workers && s.workers[w].attached
      then Weight(s.workers[w].message, p, s.maxRetries) - HeldWeight(s.workers[w], p, s.maxRetries) else 0
    case _ => 0
  }

  ghost predicate Paid(s: State, step: Step, t: State, p: Payload) {
    Budget(t, p) + (if FailsRun(s, step, p) then 1 else 0) <= Budget(s, p) + Fault(s, step, p)
  }

  /** Changing one worker's hands. */
  lemma WorkerChanges(s: State, w: Id, x: Worker, p: Payload)
    requires w in s.workers
    ensures Held(s.workers[w := x], p, s.maxRetries) + HeldWeight(s.workers[w], p, s.maxRetries)
         == Held(s.workers, p, s.maxRetries) + HeldWeight(x, p, s.maxRetries)
    ensures Held(Without(s.workers, w), p, s.maxRetries) + HeldWeight(s.workers[w], p, s.maxRetries)
         == Held(s.workers, p, s.maxRetries)
  {
    hide Held, HeldWeight, Without;
    WorkerSets(s.workers, w, x, p, s.maxRetries);
  }

  lemma DeliverIsPaid(s: State, w: Id, m: Message, p: Payload)
    ensures Budget(DoDeliver(s, w, m), p) <= Budget(s, p)
  {
    hide Queued, Held, Without;
    if w !in s.workers && m in s.queue {
      QueueTakes(s.queue, m, p, s.maxRetries);
      WorkerSets(s.workers, w, Worker(m, Received, true), p, s.maxRetries);
    }
  }

  lemma HandlerMoveIsPaid(s: State, w: Id, pc: Pc, p: Payload)
    requires w in s.workers && InHandler(s.workers[w].pc)
    ensures Held(s.workers[w := s.workers[w].(pc := pc)], p, s.maxRetries)
            + (if pc.Failing? && s.workers[w].message.payload == p then 1 else 0)
         <= Held(s.workers, p, s.maxRetries)
  {
    hide Held;
    WorkerChanges(s, w, s.workers[w].(pc := pc), p);
  }

  lemma HandleIsPaid(s: State, w: Id, now: int, p: Payload)
    requires w in s.workers && InHandler(s.workers[w].pc)
    ensures var t := DoHandle(s, w, now);
            && w in t.workers
            && Budget(t, p) + (if t.workers[w].pc.Failing? && s.workers[w].message.payload == p then 1 else 0)
               <= Budget(s, p)
  {
    hide HandlerStep, ModeFor, Held, Queued, InHandler;
    HandlerMoveIsPaid(s, w, DoHandle(s, w, now).workers[w].pc, p);
  }

  lemma ThrowIsPaid(s: State, w: Id, p: Payload)
    requires w in s.workers && InHandler(s.workers[w].pc)
    ensures var t := DoHandlerThrows(s, w);
            Budget(t, p) + (if s.workers[w].message.payload == p then 1 else 0) <= Budget(s, p)
  {
    hide Held, Queued, InHandler;
    HandlerMoveIsPaid(s, w, Failing(StorageFailure), p);
  }

  lemma RepublishIsPaid(s: State, w: Id, arrives: bool, confirms: bool, p: Payload)
    requires w in s.workers && MayRepublish(s.workers[w].pc)
    ensures Budget(DoRepublishCopy(s, w, arrives, confirms), p)
         <= Budget(s, p) + Fault(s, RepublishCopy(w, arrives, confirms), p)
  {
    hide Held, Queued;
    var x := s.workers[w];
    WorkerChanges(s, w, x.(pc := if arrives && confirms then Republished else Nacking), p);
    QueueAdds(s.queue, Message(x.message.payload, x.message.retries + 1), p, s.maxRetries);
  }

  lemma LeavingIsPaid(s: State, w: Id, p: Payload)
    requires w in s.workers
    ensures Budget(DoAck(s, w), p) <= Budget(s, p) && Budget(DoNack(s, w), p) <= Budget(s, p)
    ensures Budget(DoLoseChannel(s, w), p) <= Budget(s, p) + Fault(s, LoseChannel(w), p)
    ensures Budget(DoCrash(s, w), p) <= Budget(s, p) + Fault(s, Crash(w), p)
  {
    hide Held, Queued, Without, Weight;
    var x := s.workers[w];
    WorkerChanges(s, w, x.(attached := false), p);
    QueueAdds(s.queue, x.message, p, s.maxRetries);
  }

  lemma HandlerStepIsPaid(s: State, step: Step, p: Payload)
    requires (step.Handle? || step.HandlerThrows?) && step.worker in s.workers
    ensures Paid(s, step, Do(s, step), p)
  {
    hide Budget, Weight, HeldWeight, DoHandle, InHandler;
    if !InHandler(s.workers[step.worker].pc) {
      IdleHandlersDoNothing(s, step);
    } else if step.Handle? {
      HandleIsPaid(s, step.worker, step.now, p);
    } else {
      ThrowIsPaid(s, step.worker, p);
    }
  }

  lemma IdleHandlersDoNothing(s: State, step: Step)
    requires (step.Handle? || step.HandlerThrows?) && step.worker in s.workers && !InHandler(s.workers[step.worker].pc)
    ensures Do(s, step) == s
  {
    hide HandlerStep;
  }

  lemma RepublishStepIsPaid(s: State, step: Step, p: Payload)
    requires step.RepublishCopy? && step.worker in s.workers
    ensures Paid(s, step, Do(s, step), p)
  {
    hide Budget, Weight, HeldWeight;
    if MayRepublish(s.workers[step.worker].pc) {
      RepublishIsPaid(s, step.worker, step.arrives, step.confirms, p);
    }
  }

  lemma LeavingStepIsPaid(s: State, step: Step, p: Payload)
    requires (step.Ack? || step.Nack? || step.LoseChannel? || step.Crash?) && step.worker in s.workers
    ensures Paid(s, step, Do(s, step), p)
  {
    hide Budget, Weight, HeldWeight, DoAck, DoNack, DoLoseChannel, DoCrash;
    LeavingIsPaid(s, step.worker, p);
  }

  lemma WorkerStepIsPaid(s: State, step: Step, p: Payload)
    requires WorkerStep(step)
    ensures Paid(s, step, Do(s, step), p)
  {
    hide DoDeliver, DoHandle, DoHandlerThrows, DoRepublishCopy, DoAck, DoNack, DoLoseChannel, DoCrash, Budget;
    hide Weight, HeldWeight, MayRepublish;
    if step.Deliver? {
      DeliverIsPaid(s, step.worker, step.message, p);
    } else if step.worker !in s.workers {
      AbsentWorkersDoNothing(s, step);
    } else if step.Handle? || step.HandlerThrows? {
      HandlerStepIsPaid(s, step, p);
    } else if step.RepublishCopy? {
      RepublishStepIsPaid(s, step, p);
    } else {
      LeavingStepIsPaid(s, step, p);
    }
  }

  lemma StepIsPaid(s: State, step: Step, p: Payload)
    ensures Paid(s, step, Do(s, step), p)
  {
    hide Do, Weight, HeldWeight, Queued, Held;
    if WorkerStep(step) {
      WorkerStepIsPaid(s, step, p);
    } else if step.PublishRow? {
      PublishIsPaid(s, step.event, step.arrives, step.confirms, p);
    } else if step.ForeignMessage? {
      InjectionIsPaid(s, step.payload, step.retries, p);
    } else {
      OthersKeepMessages(s, step);
    }
  }

  lemma PublishIsPaid(s: State, event: Id, arrives: bool, confirms: bool, p: Payload)
    ensures var step := PublishRow(event, arrives, confirms);
            Budget(Do(s, step), p) <= Budget(s, p) + Fault(s, step, p)
  {
    hide Weight, Held, Queued;
    if event in s.db.outbox {
      QueueAdds(s.queue, Message(s.db.outbox[event].payload, 0), p, s.maxRetries);
    }
  }

  lemma InjectionIsPaid(s: State, q: Payload, retries: nat, p: Payload)
    ensures var step := ForeignMessage(q, retries);
            Budget(Do(s, step), p) <= Budget(s, p) + Fault(s, step, p)
  {
    hide Weight, Held, Queued;
    QueueAdds(s.queue, Message(q, retries), p, s.maxRetries);
  }

  // ----- over runs

  /** How many handler runs on copies of `p` fail during a run. */
  function FailedRuns(s: State, steps: seq<Step>, p: Payload): nat {
    if steps == [] then 0
    else
      var before := steps[..|steps| - 1];
      FailedRuns(s, before, p) + (if FailsRun(Run(s, before), steps[|steps| - 1], p) then 1 else 0)
  }

  function Faults(s: State, steps: seq<Step>, p: Payload): nat {
    if steps == [] then 0
    else
      var before := steps[..|steps| - 1];
      Faults(s, before, p) + Fault(Run(s, before), steps[|steps| - 1], p)
  }

  /** Counting a failed run: a handler at work on the payload, by its own step or a failed interaction, ends there. */
  lemma FailedRunsCount(s: State, steps: seq<Step>, step: Step, p: Payload)
    ensures var u := Run(s, steps);
            FailedRuns(s, steps + [step], p) - FailedRuns(s, steps, p)
            == if && (step.Handle? || step.HandlerThrows?) && step.worker in u.workers
                  && u.workers[step.worker].message.payload == p && !u.workers[step.worker].pc.Failing?
                  && step.worker in Do(u, step).workers && Do(u, step).workers[step.worker].pc.Failing?
               then 1 else 0
  {
    hide Do;
    assert (steps + [step])[..|steps|] == steps;
    if (step.Handle? || step.HandlerThrows?) && step.worker in Run(s, steps).workers
       && !InHandler(Run(s, steps).workers[step.worker].pc) {
      IdleHandlersDoNothing(Run(s, steps), step);
    }
  }

  /** For every state and every run from it, with no condition: the failed handler runs are paid from the
      budget the run began with and from what faults and new copies added on the way. */
  lemma {:induction false} FailuresArePaid(s: State, steps: seq<Step>, p: Payload)
    ensures Budget(Run(s, steps), p) + FailedRuns(s, steps, p) <= Budget(s, p) + Faults(s, steps, p)
  {
    hide Do, Budget, FailsRun, Fault;
    if steps == [] {
    } else {
      var before, step := steps[..|steps| - 1], steps[|steps| - 1];
      FailuresArePaid(s, before, p);
      StepIsPaid(Run(s, before), step, p);
    }
  }

  /** A step that adds no copy of `p`, confirms the copies it republishes, and takes no channel from a worker
      that holds one, nor the worker itself between a failure and its ack. */
  predicate Calm(s: State, step: Step, p: Payload) {
    match step
    case PublishRow(event, arrives, _) => arrives && event in s.db.outbox ==> s.db.outbox[event].payload != p
    case ForeignMessage(q, _) => q != p
    case RepublishCopy(w, arrives, confirms) =>
      w in s.workers && s.workers[w].message.payload == p && MayRepublish(s.workers[w].pc) ==> arrives && confirms
    case LoseChannel(w) => w in s.workers && s.workers[w].message.payload == p ==> !s.workers[w].attached
    case Crash(w) =>
      w in s.workers && s.workers[w].message.payload == p && s.workers[w].attached ==>
        !s.workers[w].pc.Failing? && !s.workers[w].pc.Republished?
    case _ => true
  }

  /** What counts as a fault: a published or injected copy of the payload, and of a copy in a worker's hands the loss
      of its channel, of its worker between a failure and its ack, or of the confirmation of its republication.
      None adds more than the budget of a new copy. */
  lemma FaultsAreFew(s: State, step: Step, p: Payload)
    ensures Fault(s, step, p) <= s.maxRetries + 1
    ensures Fault(s, step, p) > 0 ==> !Calm(s, step, p)
    ensures !Calm(s, step, p) <==>
              || (step.PublishRow? && step.arrives && step.event in s.db.outbox
                  && s.db.outbox[step.event].payload == p)
              || (step.ForeignMessage? && step.payload == p)
              || (&& (step.RepublishCopy? || step.LoseChannel? || step.Crash?) && step.worker in s.workers
                  && var x := s.workers[step.worker];
                  && x.message.payload == p
                  && (step.RepublishCopy? ==> MayRepublish(x.pc) && !(step.arrives && step.confirms))
                  && (step.LoseChannel? ==> x.attached)
                  && (step.Crash? ==> x.attached && (x.pc.Failing? || x.pc.Republished?)))
  {
  }

  predicate CalmRun(s: State, steps: seq<Step>, p: Payload) {
    forall i :: 0 <= i < |steps| ==> Calm(Run(s, steps[..i]), steps[i], p)
  }

  lemma CalmAddsNothing(s: State, step: Step, p: Payload)
    requires Calm(s, step, p)
    ensures Fault(s, step, p) == 0
  {
  }

  lemma {:induction false} CalmRunsAddNothing(s: State, steps: seq<Step>, p: Payload)
    requires CalmRun(s, steps, p)
    ensures Faults(s, steps, p) == 0
  {
    hide Run, Calm, Fault;
    if steps == [] {
    } else {
      var k := |steps| - 1;
      forall i | 0 <= i < k ensures Calm(Run(s, steps[..k][..i]), steps[..k][i], p) {
        assert steps[..k][..i] == steps[..i];
      }
      CalmRunsAddNothing(s, steps[..k], p);
      CalmAddsNothing(Run(s, steps[..k]), steps[k], p);
    }
  }

  lemma QueuedCopiesCount(q: multiset<Message>, p: Payload, limit: nat)
    requires Queued(q, p, limit) == 0
    ensures !HasCopy(q, p)
  {
    if HasCopy(q, p) {
      var m :| m in q && m.payload == p;
      QueueTakes(q, m, p, limit);
      assert false;
    }
  }

  lemma {:induction false} NoCopiesNoWeight(q: multiset<Message>, p: Payload, limit: nat)
    requires !HasCopy(q, p)
    ensures Queued(q, p, limit) == 0
    decreases |q|
  {
    if q == multiset{} {
    } else {
      var m :| m in q;
      QueueTakes(q, m, p, limit);
      NoCopiesNoWeight(q - multiset{m}, p, limit);
    }
  }

  lemma {:induction false} IdleHandsNoWeight(workers: map<Id, Worker>, p: Payload, limit: nat)
    requires forall w :: w in workers ==> workers[w].message.payload != p
    ensures Held(workers, p, limit) == 0
    decreases |workers|
  {
    if workers == map[] {
    } else {
      var w :| w in workers;
      WorkerSets(workers, w, workers[w], p, limit);
      assert Without(workers, w) == workers - {w};
      IdleHandsNoWeight(Without(workers, w), p, limit);
    }
  }

  /** One copy of a message that nobody holds yet, whoever handles it and whatever else happens: its handler
      fails at most maxRetries - count + 1 times, counting its republished successors, and once for every unit
      that faults and new copies add; after that many failures no copy is left in the main queue. A calm run adds
      nothing. */
  lemma FailuresOfOneMessage(s: State, steps: seq<Step>, m: Message)
    requires m in s.queue && !HasCopy(s.queue - multiset{m}, m.payload)
    requires forall w :: w in s.workers ==> s.workers[w].message.payload != m.payload
    ensures var allowed := (if m.retries <= s.maxRetries then s.maxRetries - m.retries + 1 else 1)
                           + Faults(s, steps, m.payload);
            && FailedRuns(s, steps, m.payload) <= allowed
            && (FailedRuns(s, steps, m.payload) == allowed ==> !HasCopy(Run(s, steps).queue, m.payload))
    ensures CalmRun(s, steps, m.payload) ==> Faults(s, steps, m.payload) == 0
  {
    hide Queued, Held, FailedRuns, CalmRun, Run, Faults;
    var p := m.payload;
    if CalmRun(s, steps, p) {
      CalmRunsAddNothing(s, steps, p);
    }
    FailuresArePaid(s, steps, p);
    QueueTakes(s.queue, m, p, s.maxRetries);
    NoCopiesNoWeight(s.queue - multiset{m}, p, s.maxRetries);
    IdleHandsNoWeight(s.workers, p, s.maxRetries);
    if Budget(Run(s, steps), p) == 0 {
      QueuedCopiesCount(Run(s, steps).queue, p, Run(s, steps).maxRetries);
    }
  }
}
