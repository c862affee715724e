/** From every reachable state, a queued message of a conversion settles it once one worker can handle it
    without interruption. */
module Progress {
  import opened Common
  import opened Wallets
  import opened Conversions
  import opened Tables
  import opened Transactions
  import opened Execution
  import opened Ledger
  import opened Invariants
  import opened Protocol
  import opened StateProof
  import opened Guarantees
  import opened Acceptance
  import opened Solo
  import opened Delivery

  function Handles(w: Id, now: int, n: nat): seq<Step> {
    seq(n, i => Handle(w, now))
  }

  /** The steps of a worker that nobody interrupts are one run of the handler. */
  lemma {:induction false} UninterruptedHandling(s: State, w: Id, now: int, n: nat)
    requires w in s.workers && Remaining(s.workers[w].pc) <= n
    ensures var x := s.workers[w];
            var p := x.message.payload;
            var (db, pc) := RunHandler(s.db, p, x.pc, ModeFor(s, p.eventId), now);
            Run(s, Handles(w, now, n)) == s.(db := db, workers := s.workers[w := x.(pc := pc)])
    decreases n
  {
    hide HandlerStep, ModeFor, Do, RunHandler, Run;
    var x := s.workers[w];
    var p := x.message.payload;
    var mode := ModeFor(s, p.eventId);
    RunUnfolds(s.db, p, x.pc, mode, now);
    if n == 0 {
      NoSteps(s);
      assert Handles(w, now, n) == [];
      assert s.workers[w := x] == s.workers;
      assert x.(pc := x.pc) == x;
    } else {
      var t := DoHandle(s, w, now);
      assert Handles(w, now, n) == [Handle(w, now)] + Handles(w, now, n - 1);
      RunConcat(s, [Handle(w, now)], Handles(w, now, n - 1));
      OneStep(s, Handle(w, now));
      HandleIs(s, w, now);
      HandleMovesOn(s, w, now);
      UninterruptedHandling(t, w, now, n - 1);
      assert s.workers[w := x] == s.workers;
    }
  }

  lemma HandleIs(s: State, w: Id, now: int)
    ensures Do(s, Handle(w, now)) == DoHandle(s, w, now)
  {
    hide DoHandle;
  }

  lemma HandleMovesOn(s: State, w: Id, now: int)
    requires w in s.workers
    ensures var x := s.workers[w];
            var p := x.message.payload;
            var t := DoHandle(s, w, now);
            && t == s.(db := t.db, workers := s.workers[w := x.(pc := t.workers[w].pc)])
            && w in t.workers && t.workers[w].message == x.message && ModeFor(t, p.eventId) == ModeFor(s, p.eventId)
            && if InHandler(x.pc) then (t.db, t.workers[w].pc) == HandlerStep(s.db, p, x.pc, ModeFor(s, p.eventId), now)
               else t == s
  {
    hide HandlerStep;
    assert s.workers[w := s.workers[w]] == s.workers;
  }

  lemma Delivered(s: State, w: Id, m: Message)
    ensures Run(s, [Deliver(w, m)]) == DoDeliver(s, w, m)
  {
    hide DoDeliver, Run;
    OneStep(s, Deliver(w, m));
  }

  /** In every reachable state, a free worker that takes the message of a stored conversion and is left
      alone with it leaves that conversion terminal, or finds no room in its target wallet's column. */
  lemma DeliverySettles(maxRetries: nat, steps: seq<Step>, w: Id, m: Message, id: Id, now: int)
    requires var s := After(maxRetries, steps);
             && w !in s.workers && m in s.queue && id in s.db.conversions
             && s.db.conversions[id].eventId.Some?
             && m.payload == PayloadOf(s.db.conversions[id].eventId.value, id, s.db.conversions[id])
    ensures var s := After(maxRetries, steps);
            var t := After(maxRetries, steps + ([Deliver(w, m)] + Handles(w, now, 6)));
            var c := s.db.conversions[id];
            var event := m.payload.eventId;
            && id in t.db.conversions && w in t.workers
            && if NoRoom(s.db.wallets, c, ExchangeOutcome(s.db.exchange, event, ModeFor(s, event)))
               then t.workers[w].pc == Failing(SettlementRefused(WalletRefused(ConstraintViolated)))
               else t.workers[w].pc == Returned && Terminal(t.db.conversions[id].status)
  {
    hide After, StateInv, DbInv, Run, RunHandler, PayloadOf, PayloadMatches, NoRoom, Handles, TablesInv, LedgerOk;
    hide WorkersOk, AcceptingOk, EventsKept;
    hide RowsInv, RecordsOk, OrdersOk, ResultsOk, MarkersOk, ModeFor;
    var s := After(maxRetries, steps);
    ReachableState(maxRetries, steps);
    UnpackState(s);
    var c := s.db.conversions[id];
    var p := m.payload;
    PayloadNames(c.eventId.value, id, c);
    OwnPayloadMatches(c.eventId.value, id, c);
    OwnMessageSettles(s.db, s.funded, p, ModeFor(s, p.eventId), now);
    var d := DoDeliver(s, w, m);
    Delivered(s, w, m);
    ContinuedRun(maxRetries, steps, [Deliver(w, m)] + Handles(w, now, 6));
    RunConcat(s, [Deliver(w, m)], Handles(w, now, 6));
    SameMode(s, w, m);
    UninterruptedHandling(d, w, now, 6);
  }

  lemma SameMode(s: State, w: Id, m: Message)
    ensures ModeFor(DoDeliver(s, w, m), m.payload.eventId) == ModeFor(s, m.payload.eventId)
  {
  }

  lemma ContinuedRun(maxRetries: nat, steps: seq<Step>, more: seq<Step>)
    ensures After(maxRetries, steps + more) == Run(After(maxRetries, steps), more)
  {
    hide Run;
    RunConcat(Start(maxRetries), steps, more);
  }

  // ----- every unsettled conversion

  /** The message of a stored conversion. */
  function MessageOf(rows: ConversionTable, id: Id): Payload
    requires id in rows && rows[id].eventId.Some?
  {
    PayloadOf(rows[id].eventId.value, id, rows[id])
  }

  /** The conversion can take the outcome that the exchange would give now. */
  predicate HasRoom(s: State, id: Id)
    requires id in s.db.conversions && s.db.conversions[id].eventId.Some?
  {
    var event := s.db.conversions[id].eventId.value;
    !NoRoom(s.db.wallets, s.db.conversions[id], ExchangeOutcome(s.db.exchange, event, ModeFor(s, event)))
  }

  /** The publisher still finds this row: it is not marked as published. */
  predicate Due(s: State, event: Id) {
    event in s.db.outbox && s.db.outbox[event].publishedAt.None?
  }

  /** A step of the system itself: no foreign message, and no publication of a row that is marked already. */
  predicate OwnStep(s: State, step: Step) {
    !step.ForeignMessage? && (step.PublishRow? && step.event in s.db.outbox ==> Due(s, step.event))
  }

  predicate OwnRun(s: State, steps: seq<Step>) {
    forall i :: 0 <= i < |steps| ==> OwnStep(Run(s, steps[..i]), steps[i])
  }

  /** Taking a message from a worker, delivering it and handling it. */
  predicate TakesAndHandles(step: Step) {
    step.Crash? || step.Deliver? || step.Handle?
  }

  lemma HandlingIsOwn(s: State, steps: seq<Step>)
    requires forall i :: 0 < i < |steps| ==> TakesAndHandles(steps[i])
    requires steps != [] ==> TakesAndHandles(steps[0]) || OwnStep(s, steps[0])
    ensures OwnRun(s, steps)
  {
    hide Do, Due;
    NoSteps(s);
    assert steps != [] ==> steps[..0] == [];
  }

  lemma QueuedCanSettle(maxRetries: nat, steps: seq<Step>, id: Id, w: Id, now: int) returns (more: seq<Step>)
    requires var s := After(maxRetries, steps);
             && id in s.db.conversions && s.db.conversions[id].eventId.Some? && w !in s.workers
             && HasRoom(s, id) && HasCopy(s.queue, MessageOf(s.db.conversions, id))
    ensures id in After(maxRetries, steps + more).db.conversions
    ensures Terminal(After(maxRetries, steps + more).db.conversions[id].status)
    ensures forall i :: 0 <= i < |more| ==> TakesAndHandles(more[i])
  {
    hide After, NoRoom, PayloadOf;
    var s := After(maxRetries, steps);
    var m :| m in s.queue && m.payload == MessageOf(s.db.conversions, id);
    PayloadNames(s.db.conversions[id].eventId.value, id, s.db.conversions[id]);
    DeliverySettles(maxRetries, steps, w, m, id, now);
    more := [Deliver(w, m)] + Handles(w, now, 6);
  }

  /** A step that brings the message into the queue and leaves everything the settlement depends on. */
  predicate OnlyQueues(s: State, t: State) {
    t.db == s.db && t.defaultMode == s.defaultMode && t.orderModes == s.orderModes
    && forall w :: w in t.workers ==> w in s.workers
  }

  lemma FirstQueued(maxRetries: nat, steps: seq<Step>, first: Step, id: Id, w: Id, now: int) returns (more: seq<Step>)
    requires var s := After(maxRetries, steps);
             && id in s.db.conversions && s.db.conversions[id].eventId.Some? && w !in s.workers && HasRoom(s, id)
             && OnlyQueues(s, Do(s, first)) && HasCopy(Do(s, first).queue, MessageOf(s.db.conversions, id))
    ensures id in After(maxRetries, steps + more).db.conversions
    ensures Terminal(After(maxRetries, steps + more).db.conversions[id].status)
    ensures more != [] && more[0] == first && forall i :: 0 < i < |more| ==> TakesAndHandles(more[i])
  {
    hide After, NoRoom, PayloadOf, Do, HasCopy;
    NextState(maxRetries, steps, first);
    var rest := QueuedCanSettle(maxRetries, steps + [first], id, w, now);
    more := [first] + rest;
    assert steps + [first] + rest == steps + more;
  }

  lemma CrashQueues(s: State, v: Id)
    requires v in s.workers && s.workers[v].attached
    ensures OnlyQueues(s, Do(s, Crash(v))) && HasCopy(Do(s, Crash(v)).queue, s.workers[v].message.payload)
  {
    hide HasCopy;
    CopyAdded(s.queue, s.workers[v].message, s.workers[v].message.payload);
  }

  lemma PublishQueues(s: State, event: Id)
    requires event in s.db.outbox
    ensures var t := Do(s, PublishRow(event, true, true));
            OnlyQueues(s, t) && HasCopy(t.queue, s.db.outbox[event].payload)
  {
    hide HasCopy;
    CopyAdded(s.queue, Message(s.db.outbox[event].payload, 0), s.db.outbox[event].payload);
  }

  /** From every reachable state, every unsettled conversion with room in its target wallet has a continuation
      by the system's own steps that settles it, unless the only copies of its message are dead letters: publish
      the event if that is still due, or take the message from the worker that holds it, then deliver and handle. */
  lemma UnsettledCanSettle(maxRetries: nat, steps: seq<Step>, id: Id, w: Id, now: int) returns (more: seq<Step>)
    requires var s := After(maxRetries, steps);
             && id in s.db.conversions && !Terminal(s.db.conversions[id].status) && w !in s.workers
             && (s.db.conversions[id].eventId.Some? ==>
                   && HasRoom(s, id)
                   && (HasCopy(s.deadLetters, MessageOf(s.db.conversions, id)) ==>
                         || Due(s, s.db.conversions[id].eventId.value)
                         || HasCopy(s.queue, MessageOf(s.db.conversions, id))
                         || Minded(s.workers, MessageOf(s.db.conversions, id))))
    ensures id in After(maxRetries, steps + more).db.conversions
    ensures Terminal(After(maxRetries, steps + more).db.conversions[id].status)
    ensures var s := After(maxRetries, steps);
            && OwnRun(s, more)
            && forall i :: 0 <= i < |more| ==>
                 || TakesAndHandles(more[i])
                 || (s.db.conversions[id].eventId.Some? && Due(s, s.db.conversions[id].eventId.value)
                     && more[i] == PublishRow(s.db.conversions[id].eventId.value, true, true))
  {
    hide After, NoRoom, PayloadOf, Do, HasCopy, HasRoom, StateInv, OwnRun;
    var s := After(maxRetries, steps);
    NoEventIsLost(maxRetries, steps, id);
    var event := s.db.conversions[id].eventId.value;
    var p := MessageOf(s.db.conversions, id);
    if HasCopy(s.queue, p) {
      more := QueuedCanSettle(maxRetries, steps, id, w, now);
    } else if Minded(s.workers, p) {
      var v :| v in s.workers && Minds(s.workers[v], p);
      CrashQueues(s, v);
      more := FirstQueued(maxRetries, steps, Crash(v), id, w, now);
    } else {
      ConversionsAreEvents(maxRetries, steps, event);
      assert BoundTo(s.db.conversions, event, id);
      PublishQueues(s, event);
      more := FirstQueued(maxRetries, steps, PublishRow(event, true, true), id, w, now);
    }
    HandlingIsOwn(s, more);
  }
}
