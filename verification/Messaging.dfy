/**
  The publisher's batch loop and the consumer's acknowledgements
  (src/modules/conversion/infrastructure/messaging/outbox-publisher.service.ts,
  src/modules/conversion/infrastructure/messaging/rabbitmq.connection.ts), on a channel updated in place,
  and how they are steps of the protocol.
*/
module Messaging {
  import opened Common
  import opened Tables
  import opened Execution
  import opened Protocol
  import opened StateProof
  import opened Repositories

  const MAX_SAFE_INTEGER := 9007199254740991

  /** What a message may carry as its x-retry-count header. */
  datatype HeaderValue = Absent | Integer(value: int) | Other

  function RetryCount(header: HeaderValue): nat {
    if header.Integer? && 0 <= header.value <= MAX_SAFE_INTEGER then header.value else 0
  }

  /** What becomes of a publication: whether the copy arrives, and whether its confirmation does. */
  datatype Publication = Publication(arrives: bool, confirms: bool) {
    predicate Confirmed() {
      arrives && confirms
    }
  }

  datatype Ending = Acked | Nacked | LeftUnacked

  function EndingOf(pub: Publication, ackThrows: bool, nackArrives: bool): Ending {
    if pub.Confirmed() && !ackThrows then Acked else if nackArrives then Nacked else LeftUnacked
  }

  function Copy(m: Message, limit: nat): Message {
    if m.retries < limit then Message(m.payload, m.retries + 1) else m
  }

  /** The main queue after a failed delivery of `m`. */
  function QueueAfter(queue: multiset<Message>, m: Message, limit: nat, pub: Publication,
                      end: Ending): multiset<Message> {
    var sent := if pub.arrives && m.retries < limit then queue + multiset{Copy(m, limit)} else queue;
    if end == Nacked then sent + multiset{m} else sent
  }

  function DeadLettersAfter(dead: multiset<Message>, m: Message, limit: nat, pub: Publication): multiset<Message> {
    if pub.arrives && m.retries >= limit then dead + multiset{m} else dead
  }

  class Channel {
    var queue: multiset<Message>
    var deadLetters: multiset<Message>
    const maxRetries: nat

    constructor (maxRetries: nat)
      ensures queue == multiset{} && deadLetters == multiset{} && this.maxRetries == maxRetries
    {
      queue, deadLetters, this.maxRetries := multiset{}, multiset{}, maxRetries;
    }

    /** publishBuffer to the main queue; resolves only once the broker confirmed. */
    method Publish(m: Message, pub: Publication) returns (resolved: bool)
      modifies this`queue
      ensures resolved == pub.Confirmed()
      ensures queue == if pub.arrives then old(queue) + multiset{m} else old(queue)
    {
      if pub.arrives {
        queue := queue + multiset{m};
      }
      resolved := pub.arrives && pub.confirms;
    }

    method PublishDeadLetter(m: Message, pub: Publication) returns (resolved: bool)
      modifies this`deadLetters
      ensures resolved == pub.Confirmed()
      ensures deadLetters == if pub.arrives then old(deadLetters) + multiset{m} else old(deadLetters)
    {
      if pub.arrives {
        deadLetters := deadLetters + multiset{m};
      }
      resolved := pub.arrives && pub.confirms;
    }

    /** handleConsumerFailure on an unacked delivery: publish first, ack only when confirmed, else nack. On a
        closed channel the ack throws, and the nack is lost. */
    method HandleConsumerFailure(p: Payload, header: HeaderValue, pub: Publication, ackThrows: bool, nackArrives: bool)
      returns (end: Ending)
      modifies this
      ensures end == EndingOf(pub, ackThrows, nackArrives)
      ensures queue == QueueAfter(old(queue), Message(p, RetryCount(header)), maxRetries, pub, end)
      ensures deadLetters == DeadLettersAfter(old(deadLetters), Message(p, RetryCount(header)), maxRetries, pub)
      ensures pub.arrives && pub.confirms && !ackThrows ==>
                && end == Acked
                && var n := if header.Integer? && 0 <= header.value <= 9007199254740991 then header.value else 0;
                if n < maxRetries then
                  queue == old(queue) + multiset{Message(p, n + 1)} && deadLetters == old(deadLetters)
                else queue == old(queue) && deadLetters == old(deadLetters) + multiset{Message(p, n)}
      ensures !pub.arrives ==>
                && end == (if nackArrives then Nacked else LeftUnacked) && deadLetters == old(deadLetters)
                && var n := if header.Integer? && 0 <= header.value <= 9007199254740991 then header.value else 0;
                queue == if nackArrives then old(queue) + multiset{Message(p, n)} else old(queue)
      ensures end == Acked <==> pub.arrives && pub.confirms && !ackThrows
      ensures end == Nacked ==> nackArrives
      ensures end == Acked ==> match FateOf(header, maxRetries)
                               case Requeued(next) => next.Integer? && next.value >= 0
                                                      && queue == old(queue) + multiset{Message(p, next.value)}
                               case DeadLettered(n) => deadLetters == old(deadLetters) + multiset{Message(p, n)}
    {
      var retryCount := RetryCount(header);
      var resolved: bool;
      if retryCount < maxRetries {
        resolved := Publish(Message(p, retryCount + 1), pub);
      } else {
        resolved := PublishDeadLetter(Message(p, retryCount), pub);
      }
      if resolved && !ackThrows {
        return Acked;
      }
      if nackArrives {
        queue := queue + multiset{Message(p, retryCount)};
        return Nacked;
      }
      end := LeftUnacked;
    }

    /** The consumer callback: ack a delivery whose handler resolved; if it rejected, or if that ack throws,
        the failure path. The payload of a failed delivery is never gone: it is queued, dead-lettered, or
        still unacked. */
    method HandleDelivery(p: Payload, header: HeaderValue, pc: Pc, pub: Publication, ackThrows: bool, nackArrives: bool)
      returns (end: Ending)
      requires pc.Returned? || pc.Failing?
      modifies this
      ensures pc.Returned? && !ackThrows ==> end == Acked && queue == old(queue) && deadLetters == old(deadLetters)
      ensures pc.Failing? || ackThrows ==>
                && end == EndingOf(pub, ackThrows, nackArrives)
                && queue == QueueAfter(old(queue), Message(p, RetryCount(header)), maxRetries, pub, end)
                && deadLetters == DeadLettersAfter(old(deadLetters), Message(p, RetryCount(header)), maxRetries, pub)
      ensures pc.Failing? ==> end == LeftUnacked || HasCopy(queue, p) || HasCopy(deadLetters, p)
      ensures pc.Failing? && pub.arrives && pub.confirms && !ackThrows ==>
                && end == Acked
                && var n := if header.Integer? && 0 <= header.value <= 9007199254740991 then header.value else 0;
                if n < maxRetries then
                  queue == old(queue) + multiset{Message(p, n + 1)} && deadLetters == old(deadLetters)
                else queue == old(queue) && deadLetters == old(deadLetters) + multiset{Message(p, n)}
    {
      if pc.Returned? && !ackThrows {
        return Acked;
      }
      end := HandleConsumerFailure(p, header, pub, ackThrows, nackArrives);
      ghost var m := Message(p, RetryCount(header));
      if end == Nacked {
        assert m in queue;
      } else if end == Acked && m.retries < maxRetries {
        assert Copy(m, maxRetries) in queue;
      } else if end == Acked {
        assert m in deadLetters;
      }
    }
  }

  // ----- headers

  /** What a confirmed failure makes of a message with this header: a copy with the next one, or a dead letter. */
  datatype Fate = Requeued(header: HeaderValue) | DeadLettered(count: nat)

  function FateOf(header: HeaderValue, limit: nat): Fate {
    if RetryCount(header) < limit then Requeued(Integer(RetryCount(header) + 1)) else DeadLettered(RetryCount(header))
  }

  /** The fate after a number of failures in a row, each on the copy that the one before left. */
  function FateAfter(header: HeaderValue, limit: nat, failures: nat): Fate
    requires failures >= 1
    decreases failures
  {
    if failures == 1 then FateOf(header, limit)
    else match FateOf(header, limit)
         case Requeued(next) => FateAfter(next, limit, failures - 1)
         case DeadLettered(count) => DeadLettered(count)
  }

  /** Everything that is not a non-negative safe integer counts as a message never republished. */
  lemma StrangeHeadersCountAsNone(header: HeaderValue, limit: nat)
    requires header == Absent || header == Other
             || (header.Integer? && !(0 <= header.value <= 9007199254740991))
    ensures FateOf(header, limit) == FateOf(Integer(0), limit)
            == if limit > 0 then Requeued(Integer(1)) else DeadLettered(0)
  {
  }

  /** Reading each copy's own count back from its header, a message counted `n` is queued with one more after
      each failure, and a dead letter with the limit after limit - n + 1. */
  lemma {:induction false} HeadersLeadToTheDeadLetters(n: nat, limit: nat, failures: nat)
    requires n <= limit <= 9007199254740991 && 1 <= failures <= limit - n + 1
    ensures FateAfter(Integer(n), limit, failures)
         == if n + failures <= limit then Requeued(Integer(n + failures)) else DeadLettered(limit)
    decreases failures
  {
    if failures == 1 {
    } else {
      HeadersLeadToTheDeadLetters(n + 1, limit, failures - 1);
    }
  }

  /** So a message without a header is dead-lettered by exactly the (limit + 1)-th failure. */
  lemma HeaderlessMessages(header: HeaderValue, limit: nat, failures: nat)
    requires header == Absent || header == Other
             || (header.Integer? && !(0 <= header.value <= 9007199254740991))
    requires limit <= 9007199254740991 && 1 <= failures <= limit + 1
    ensures FateAfter(header, limit, failures)
         == if failures <= limit then Requeued(Integer(failures)) else DeadLettered(limit)
  {
    StrangeHeadersCountAsNone(header, limit);
    HeadersLeadToTheDeadLetters(0, limit, failures);
  }

  lemma RepublicationIsProtocol(s: State, w: Id, pub: Publication)
    requires w in s.workers && MayRepublish(s.workers[w].pc)
    ensures var m := s.workers[w].message;
            var u := DoRepublishCopy(s, w, pub.arrives, pub.confirms);
            && u.queue == QueueAfter(s.queue, m, s.maxRetries, pub, Acked)
            && u.deadLetters == DeadLettersAfter(s.deadLetters, m, s.maxRetries, pub)
            && w in u.workers && u.workers[w].message == m && u.workers[w].attached == s.workers[w].attached
            && u.workers[w].pc == if pub.Confirmed() then Republished else Nacking
  {
  }

  /** The worker's part of how a delivery ends. */
  function Leave(u: State, w: Id, end: Ending): State {
    match end
    case Acked => DoAck(u, w)
    case Nacked => if w in u.workers && u.workers[w].pc.Nacking? then DoNack(u, w) else DoCrash(u, w)
    case LeftUnacked => u
  }

  lemma LeavingIsProtocol(u: State, w: Id, end: Ending)
    requires w in u.workers && u.workers[w].attached && (u.workers[w].pc.Republished? || u.workers[w].pc.Nacking?)
    requires end == Acked ==> u.workers[w].pc.Republished?
    ensures var t := Leave(u, w, end);
            && t.queue == (if end == Nacked then u.queue + multiset{u.workers[w].message} else u.queue)
            && t.deadLetters == u.deadLetters && (w in t.workers <==> end == LeftUnacked)
  {
  }

  /** The failure path is the protocol's: a republication, then an ack, a return to the queue, or a delivery
      that stays with its worker. */
  lemma FailureIsProtocol(s: State, w: Id, pub: Publication, ackThrows: bool, nackArrives: bool)
    requires w in s.workers && s.workers[w].attached && MayRepublish(s.workers[w].pc)
    ensures var m := s.workers[w].message;
            var end := EndingOf(pub, ackThrows, nackArrives);
            var t := Leave(DoRepublishCopy(s, w, pub.arrives, pub.confirms), w, end);
            && t.queue == QueueAfter(s.queue, m, s.maxRetries, pub, end)
            && t.deadLetters == DeadLettersAfter(s.deadLetters, m, s.maxRetries, pub)
            && (w in t.workers <==> end == LeftUnacked)
  {
    hide DoRepublishCopy, Leave, DeadLettersAfter;
    RepublicationIsProtocol(s, w, pub);
    LeavingIsProtocol(DoRepublishCopy(s, w, pub.arrives, pub.confirms), w, EndingOf(pub, ackThrows, nackArrives));
  }

  // ----- publishing

  datatype RowAttempt = RowAttempt(pub: Publication, marks: bool) {
    predicate Succeeds() {
      pub.Confirmed() && marks
    }
  }

  /** The table with these rows marked. */
  function Marked(rows: OutboxTable, ids: seq<Id>, at: int): OutboxTable {
    map e | e in rows :: if e in ids then MarkedRow(rows[e], at) else rows[e]
  }

  /** First copies of the messages of these rows. */
  function Copies(rows: OutboxTable, ids: seq<Id>): multiset<Message>
    requires forall i :: 0 <= i < |ids| ==> ids[i] in rows
  {
    if ids == [] then multiset{}
    else Copies(rows, ids[..|ids| - 1]) + multiset{Message(rows[ids[|ids| - 1]].payload, 0)}
  }

  /** One more row published and marked. */
  lemma OneMore(rows: OutboxTable, ids: seq<Id>, n: nat, at: int)
    requires n < |ids| && forall i :: 0 <= i < |ids| ==> ids[i] in rows
    requires forall i, j :: 0 <= i < j < |ids| ==> ids[i] != ids[j]
    ensures ids[n] in Marked(rows, ids[..n], at) && Marked(rows, ids[..n], at)[ids[n]] == rows[ids[n]]
    ensures Marked(rows, ids[..n + 1], at) == Marked(rows, ids[..n], at)[ids[n] := MarkedRow(rows[ids[n]], at)]
    ensures Copies(rows, ids[..n + 1]) == Copies(rows, ids[..n]) + multiset{Message(rows[ids[n]].payload, 0)}
  {
    assert ids[..n + 1] == ids[..n] + [ids[n]];
  }

  lemma BatchIsDistinct(ids: seq<Id>, created: map<Id, int>, limit: nat)
    requires OldestFirst(ids, created, limit)
    ensures forall i, j :: 0 <= i < j < |ids| ==> ids[i] != ids[j]
  {
  }

  lemma NoCopies(rows: OutboxTable)
    ensures Copies(rows, []) == multiset{}
  {
  }

  lemma NoneMarked(rows: OutboxTable, at: int)
    ensures Marked(rows, [], at) == rows
  {
  }

  /** One call of publishBatch in which everything succeeds. */
  ghost predicate HealthyBatch(a: OutboxTable, b: OutboxTable, limit: nat) {
    exists ids, at :: OldestFirst(ids, UnpublishedTimes(a), limit) && b == Marked(a, ids, at)
  }

  /** Marking unpublished rows sets their time and touches no other row. */
  lemma MarkedExactly(rows: OutboxTable, ids: seq<Id>, at: int)
    requires forall i :: 0 <= i < |ids| ==> ids[i] in rows && rows[ids[i]].publishedAt.None?
    ensures Marked(rows, ids, at).Keys == rows.Keys
    ensures forall e :: e in rows ==>
              Marked(rows, ids, at)[e] == if e in ids then rows[e].(publishedAt := Some(at)) else rows[e]
  {
  }

  lemma FullBatch(rows: OutboxTable, ids: seq<Id>, n: nat, limit: nat, at: int)
    requires OldestFirst(ids, UnpublishedTimes(rows), limit) && n <= |ids|
    ensures n == |ids| ==> HealthyBatch(rows, Marked(rows, ids[..n], at), limit)
  {
    hide OldestFirst, Marked;
    if n == |ids| {
      assert ids[..n] == ids;
    }
  }

  class OutboxPublisher {
    const outbox: OutboxRepository
    const channel: Channel
    const batchSize: nat
    var running: bool

    constructor (outbox: OutboxRepository, channel: Channel, batchSize: nat)
      ensures this.outbox == outbox && this.channel == channel && this.batchSize == batchSize && !running
    {
      this.outbox, this.channel, this.batchSize, running := outbox, channel, batchSize, false;
    }

    /** publishBatch, with the i-th publication faring as `attempts(i)`: of the oldest-first batch, exactly
        the first `published` rows are marked, each after its confirmed publication; the loop stops at the
        first failure, of which at most an unconfirmed or unmarked copy remains, and attempts nothing more.
        A batch that is already running is left alone. */
    method PublishBatch(attempts: nat -> RowAttempt, now: int) returns (published: nat, ghost batch: seq<Id>)
      modifies this`running, outbox, channel`queue
      ensures running == old(running)
      ensures old(running) ==> published == 0 && batch == []
      ensures !old(running) ==> OldestFirst(batch, UnpublishedTimes(old(outbox.rows)), batchSize)
      ensures var rows := old(outbox.rows);
              && |batch| <= batchSize
              && (forall i :: 0 <= i < |batch| ==> batch[i] in rows && rows[batch[i]].publishedAt.None?)
              && (forall i, j :: 0 <= i < j < |batch| ==>
                    batch[i] != batch[j] && rows[batch[i]].createdAt <= rows[batch[j]].createdAt)
              && (!old(running) ==> forall e :: e in rows && rows[e].publishedAt.None? && e !in batch ==>
                    && |batch| == batchSize
                    && forall i :: 0 <= i < |batch| ==> rows[batch[i]].createdAt <= rows[e].createdAt)
      ensures published <= |batch| && forall i :: 0 <= i < |batch| ==> batch[i] in old(outbox.rows)
      ensures outbox.rows.Keys == old(outbox.rows).Keys
      ensures forall e :: e in old(outbox.rows) ==>
                outbox.rows[e] == if e in batch[..published] then old(outbox.rows)[e].(publishedAt := Some(now))
                                  else old(outbox.rows)[e]
      ensures forall i :: 0 <= i < published ==> attempts(i).Succeeds()
      ensures published < |batch| ==> !attempts(published).Succeeds()
      ensures outbox.rows == Marked(old(outbox.rows), batch[..published], now)
      ensures var sent := old(channel.queue) + Copies(old(outbox.rows), batch[..published]);
              channel.queue == if published < |batch| && attempts(published).pub.arrives
                               then sent + multiset{Message(old(outbox.rows)[batch[published]].payload, 0)} else sent
      ensures !old(running) && published == |batch| ==> HealthyBatch(old(outbox.rows), outbox.rows, batchSize)
    {
      hide Marked, MarkedRow, Copies, OldestFirst, HealthyBatch, UnpublishedTimes;
      published, batch := 0, [];
      NoneMarked(outbox.rows, now);
      NoCopies(outbox.rows);
      if running {
        return;
      }
      running := true;
      var found := outbox.FindUnpublished(batchSize);
      BatchIsDistinct(found, UnpublishedTimes(outbox.rows), batchSize);
      ghost var rows := outbox.rows;
      published := PublishEach(found, attempts, now);
      FullBatch(rows, found, published, batchSize, now);
      MarkedExactly(rows, found[..published], now);
      batch := found;
      running := false;
    }

    /** The loop of publishBatch. */
    method PublishEach(found: seq<Id>, attempts: nat -> RowAttempt, now: int) returns (published: nat)
      requires forall i :: 0 <= i < |found| ==> found[i] in outbox.rows
      requires forall i, j :: 0 <= i < j < |found| ==> found[i] != found[j]
      modifies outbox, channel`queue
      ensures published <= |found|
      ensures forall i :: 0 <= i < published ==> attempts(i).Succeeds()
      ensures published < |found| ==> !attempts(published).Succeeds()
      ensures outbox.rows == Marked(old(outbox.rows), found[..published], now)
      ensures var sent := old(channel.queue) + Copies(old(outbox.rows), found[..published]);
              channel.queue == if published < |found| && attempts(published).pub.arrives
                               then sent + multiset{Message(old(outbox.rows)[found[published]].payload, 0)} else sent
    {
      hide Marked, MarkedRow, Copies;
      ghost var rows := outbox.rows;
      published := 0;
      NoneMarked(rows, now);
      NoCopies(rows);
      assert found[..0] == [];
      while published < |found|
        invariant published <= |found|
        invariant forall i :: 0 <= i < published ==> attempts(i).Succeeds()
        invariant outbox.rows == Marked(rows, found[..published], now)
        invariant channel.queue == old(channel.queue) + Copies(rows, found[..published])
      {
        var event := found[published];
        OneMore(rows, found, published, now);
        var resolved := channel.Publish(Message(outbox.rows[event].payload, 0), attempts(published).pub);
        if !resolved || !attempts(published).marks {
          break;
        }
        outbox.MarkPublished(event, now);
        published := published + 1;
      }
    }
  }
}
