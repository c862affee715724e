/** Messages, over every run: none that matters is lost, foreign ones do nothing, retries are bounded. */
module Delivery {
  import opened Common
  import opened Conversions
  import opened Tables
  import opened Execution
  import opened Invariants
  import opened Protocol
  import opened StateProof
  import opened StepProof
  import opened Guarantees

  /** As long as a conversion is not settled, its event is still to be published from the outbox, or an
      exact copy of its message is in the main queue, in the dead-letter queue, or held by a worker whose
      delivery the broker has not seen acknowledged. */
  lemma NoEventIsLost(maxRetries: nat, steps: seq<Step>, id: Id)
    requires id in After(maxRetries, steps).db.conversions
    requires !Terminal(After(maxRetries, steps).db.conversions[id].status)
    ensures var s := After(maxRetries, steps);
            var c := s.db.conversions[id];
            && c.eventId.Some?
            && (Unpublished(s, c.eventId.value)
                || InBroker(s.queue, s.deadLetters, s.workers, PayloadOf(c.eventId.value, id, c)))
  {
    hide After, StateInv, DbInv, TablesInv, WorkersOk, AcceptingOk, PayloadOf, InBroker;
    hide RecordsOk, OrdersOk, ResultsOk, MarkersOk, LifecyclesOk, FromQuotes, OnePerQuote, QuotesOk;
    hide AcceptedAreConverted;
    ReachableState(maxRetries, steps);
    var s := After(maxRetries, steps);
    UnpackState(s);
    assert HasEvent(id, s.db.conversions[id], s.db.outbox);
    var e := s.db.conversions[id].eventId.value;
    PayloadNames(e, id, s.db.conversions[id]);
    assert EventKept(s, e);
  }

  // ----- foreign and altered messages

  /** The payload is not the message of a stored conversion. */
  predicate Disagrees(rows: ConversionTable, p: Payload) {
    || p.conversionId !in rows
    || !PayloadMatches(p, rows[p.conversionId])
    || rows[p.conversionId].eventId != Some(p.eventId)
  }

  /** At most the status advance: FUNDS_RESERVED to EXECUTION_REQUESTED, bound to that same event. */
  predicate AdvancesAtMost(a: Db, b: Db, p: Payload) {
    a == b || (&& p.conversionId in a.conversions
               && var c := a.conversions[p.conversionId];
               && c.status == FundsReserved && c.eventId == Some(p.eventId)
               && b == a.(conversions := a.conversions[p.conversionId := c.(status := ExecutionRequested)]))
  }

  lemma ForeignStep(db: Db, p: Payload, pc: Pc, mode: Outcome, now: int)
    requires WorkerOk(db, p, pc) && Disagrees(db.conversions, p)
    ensures AdvancesAtMost(db, HandlerStep(db, p, pc, mode, now).0, p)
  {
    hide PayloadMatches;
  }

  /** Whatever step a worker takes with a message that disagrees with the stored conversion, in any
      reachable state: no wallet, order, marker, quote, outbox row or record changes, and no conversion,
      unless it was FUNDS_RESERVED and bound to the very event id the message carries. */
  lemma ForeignMessagesAreInert(maxRetries: nat, steps: seq<Step>, w: Id, now: int)
    requires var s := After(maxRetries, steps);
             w in s.workers && Disagrees(s.db.conversions, s.workers[w].message.payload)
    ensures var s := After(maxRetries, steps);
            AdvancesAtMost(s.db, After(maxRetries, steps + [Handle(w, now)]).db, s.workers[w].message.payload)
  {
    hide After, StateInv, WorkerOk, Disagrees, HandlerStep;
    ReachableState(maxRetries, steps);
    var s := After(maxRetries, steps);
    KnownWorker(s, w);
    NextState(maxRetries, steps, Handle(w, now));
    if InHandler(s.workers[w].pc) {
      var p := s.workers[w].message.payload;
      ForeignStep(s.db, p, s.workers[w].pc, ModeFor(s, p.eventId), now);
    }
  }
}
