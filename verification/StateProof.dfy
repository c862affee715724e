/** The invariant of the whole system, and its preservation by every step. */
module StateProof {
  import opened Common
  import opened Wallets
  import opened Conversions
  import opened Tables
  import opened Invariants
  import opened AcceptProof
  import opened Protocol

  predicate WorkersOk(db: Db, workers: map<Id, Worker>) {
    forall w :: w in workers ==> WorkerOk(db, workers[w].message.payload, workers[w].pc)
  }

  /** Open accept transactions hold distinct keys that no record has yet, and what they read is current. */
  predicate AcceptingOk(db: Db, accepting: map<Id, Accepting>) {
    && (forall t :: t in accepting ==> SeenOk(db, accepting[t].quoteId, accepting[t].seen)
                                       && accepting[t].key !in db.records)
    && (forall t, u | t in accepting && u in accepting :: accepting[t].key == accepting[u].key ==> t == u)
  }

  /** A copy of a payload among messages. */
  ghost predicate HasCopy(ms: multiset<Message>, p: Payload) {
    exists m :: m in ms && m.payload == p
  }

  /** A worker whose delivery the broker still waits for, and that has not finished with it. */
  predicate Minds(x: Worker, p: Payload) {
    x.attached && x.message.payload == p && !x.pc.Returned? && !x.pc.Republished?
  }

  predicate Minded(workers: map<Id, Worker>, p: Payload) {
    exists w :: w in workers && Minds(workers[w], p)
  }

  ghost predicate InBroker(queue: multiset<Message>, dead: multiset<Message>, workers: map<Id, Worker>, p: Payload) {
    HasCopy(queue, p) || HasCopy(dead, p) || Minded(workers, p)
  }

  predicate Unpublished(s: State, event: Id) {
    event in s.db.outbox && s.db.outbox[event].publishedAt.None? && event !in s.confirmed
  }

  /** An event is still due to be published, or a copy is in the broker, or its conversion is settled. */
  ghost predicate EventKept(s: State, event: Id)
    requires event in s.db.outbox
  {
    || (Owned(s.db.outbox, s.db.conversions, event) && Terminal(OwnerStatus(s.db.outbox, s.db.conversions, event)))
    || Unpublished(s, event)
    || InBroker(s.queue, s.deadLetters, s.workers, s.db.outbox[event].payload)
  }

  ghost predicate EventsKept(s: State) {
    forall e :: e in s.db.outbox ==> EventKept(s, e)
  }

  predicate ConfirmedOk(s: State) {
    forall e :: e in s.confirmed ==> e in s.db.outbox
  }

  ghost predicate StateInv(s: State) {
    && DbInv(s.db, s.funded)
    && WorkersOk(s.db, s.workers)
    && AcceptingOk(s.db, s.accepting)
    && ConfirmedOk(s)
    && EventsKept(s)
  }

  // ----- the parts under a database change

  lemma WorkersStable(a: Db, b: Db, workers: map<Id, Worker>)
    requires WorkersOk(a, workers) && Evolves(a, b)
    ensures WorkersOk(b, workers)
  {
    hide WorkerOk, Evolves;
    forall w | w in workers ensures WorkerOk(b, workers[w].message.payload, workers[w].pc) {
      WorkerKnowledgeIsStable(a, b, workers[w].message.payload, workers[w].pc);
    }
  }

  lemma AcceptingStable(a: Db, b: Db, accepting: map<Id, Accepting>)
    requires AcceptingOk(a, accepting) && Evolves(a, b)
    requires forall t :: t in accepting ==> accepting[t].key in b.records ==> accepting[t].key in a.records
    ensures AcceptingOk(b, accepting)
  {
    hide ConversionsEvolve, OutboxEvolves, ExchangeEvolves, QuoteOk;
    forall t | t in accepting ensures SeenOk(b, accepting[t].quoteId, accepting[t].seen) {
      assert SeenOk(a, accepting[t].quoteId, accepting[t].seen);
    }
  }

  /** Once settled, settled for good. */
  lemma SettledStable(a: Db, b: Db, event: Id)
    requires Evolves(a, b) && Owned(a.outbox, a.conversions, event)
    requires Terminal(OwnerStatus(a.outbox, a.conversions, event))
    ensures Owned(b.outbox, b.conversions, event) && Terminal(OwnerStatus(b.outbox, b.conversions, event))
  {
    hide QuotesEvolve, ExchangeEvolves;
  }

  /** A change of the database that publishes nothing and takes no held key. */
  lemma DatabaseStep(s: State, db: Db, funded: map<WalletKey, nat>)
    requires StateInv(s) && DbInv(db, funded) && Evolves(s.db, db)
    requires forall e :: e in db.outbox ==> if e in s.db.outbox then db.outbox[e] == s.db.outbox[e]
                                            else db.outbox[e].publishedAt.None?
    requires forall t :: t in s.accepting ==> s.accepting[t].key in db.records ==> s.accepting[t].key in s.db.records
    ensures StateInv(s.(db := db, funded := funded))
  {
    hide DbInv, WorkersOk, AcceptingOk, Evolves, InBroker, Owned;
    var after := s.(db := db, funded := funded);
    WorkersStable(s.db, db, s.workers);
    AcceptingStable(s.db, db, s.accepting);
    OutboxKept(s.db, db);
    forall e | e in after.db.outbox ensures EventKept(after, e) {
      if e in s.db.outbox {
        assert EventKept(s, e);
        if Owned(s.db.outbox, s.db.conversions, e) && Terminal(OwnerStatus(s.db.outbox, s.db.conversions, e)) {
          SettledStable(s.db, db, e);
        }
      }
    }
  }

  lemma OutboxKept(a: Db, b: Db)
    requires Evolves(a, b)
    ensures forall e :: e in a.outbox ==> e in b.outbox
  {
    hide ConversionsEvolve, QuotesEvolve, ExchangeEvolves;
  }

  // ----- the parts under a broker change

  /** A change of broker and workers that loses no copy of an unsettled event. */
  lemma BrokerStep(s: State, t: State)
    requires StateInv(s)
    requires t == s.(queue := t.queue, deadLetters := t.deadLetters, workers := t.workers, confirmed := t.confirmed)
    requires WorkersOk(t.db, t.workers) && ConfirmedOk(t)
    requires forall e :: e in s.db.outbox && EventKept(s, e) ==> EventKept(t, e)
    ensures StateInv(t)
  {
    hide DbInv, WorkersOk, AcceptingOk, EventKept;
  }

  lemma CopyAdded(ms: multiset<Message>, m: Message, p: Payload)
    ensures HasCopy(ms + multiset{m}, p) <==> HasCopy(ms, p) || m.payload == p
  {
    if m.payload == p {
      assert m in ms + multiset{m};
    }
    if HasCopy(ms, p) {
      var x :| x in ms && x.payload == p;
      assert x in ms + multiset{m};
    }
    if HasCopy(ms + multiset{m}, p) {
      var x :| x in ms + multiset{m} && x.payload == p;
      assert x in ms || x == m;
    }
  }

  lemma CopyTaken(ms: multiset<Message>, m: Message, p: Payload)
    requires HasCopy(ms, p) && m.payload != p
    ensures HasCopy(ms - multiset{m}, p)
  {
    var x :| x in ms && x.payload == p;
    assert x in ms - multiset{m};
  }

  lemma MindedAfter(workers: map<Id, Worker>, w: Id, x: Worker, p: Payload)
    requires Minded(workers, p)
    requires w in workers && Minds(workers[w], p) ==> Minds(x, p)
    ensures Minded(workers[w := x], p)
  {
    var v :| v in workers && Minds(workers[v], p);
    assert Minds(workers[w := x][v], p);
  }

  lemma MindedWithout(workers: map<Id, Worker>, w: Id, p: Payload)
    requires Minded(workers, p)
    requires w in workers ==> !Minds(workers[w], p)
    ensures Minded(Without(workers, w), p)
  {
    hide Minds;
    var v :| v in workers && Minds(workers[v], p);
    assert Minds(Without(workers, w)[v], p);
  }

  /** The owner of an event is settled when the worker that returned from its message says so. */
  lemma ReturnedMeansSettled(db: Db, event: Id, p: Payload)
    requires HaveEvents(db.conversions, db.outbox) && OutboxOwned(db.outbox, db.conversions)
    requires event in db.outbox && db.outbox[event].payload == p
    ensures p.eventId == event
  {
    hide PayloadOf;
    assert Owned(db.outbox, db.conversions, event);
    var id := p.conversionId;
    assert HasEvent(id, db.conversions[id], db.outbox);
    PayloadNames(event, id, db.conversions[id]);
  }
}
