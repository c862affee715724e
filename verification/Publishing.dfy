/** What publishing batches amounts to: steps of the protocol, and an outbox that drains. */
module Publishing {
  import opened Common
  import opened Tables
  import opened Protocol
  import opened Repositories
  import opened Messaging

  // ----- a batch is a run of the protocol

  function PublishSteps(ids: seq<Id>, now: int): seq<Step> {
    if ids == [] then []
    else PublishSteps(ids[..|ids| - 1], now) + [PublishRow(ids[|ids| - 1], true, true), MarkRow(ids[|ids| - 1], now)]
  }

  function Events(ids: seq<Id>): set<Id> {
    set i | 0 <= i < |ids| :: ids[i]
  }

  lemma OneRow(s: State, event: Id, now: int)
    requires event in s.db.outbox && s.db.outbox[event].publishedAt.None?
    ensures Run(s, [PublishRow(event, true, true), MarkRow(event, now)])
         == s.(db := s.db.(outbox := s.db.outbox[event := MarkedRow(s.db.outbox[event], now)]),
               queue := s.queue + multiset{Message(s.db.outbox[event].payload, 0)},
               confirmed := s.confirmed + {event})
  {
    hide DoPublishRow, DoMarkRow;
    TwoSteps(s, PublishRow(event, true, true), MarkRow(event, now));
    PublishThenMark(s, event, now);
  }

  lemma PublishThenMark(s: State, event: Id, now: int)
    requires event in s.db.outbox && s.db.outbox[event].publishedAt.None?
    ensures DoMarkRow(DoPublishRow(s, event, true, true), event, now)
         == s.(db := s.db.(outbox := s.db.outbox[event := MarkedRow(s.db.outbox[event], now)]),
               queue := s.queue + multiset{Message(s.db.outbox[event].payload, 0)},
               confirmed := s.confirmed + {event})
  {
  }

  /** The effect of a batch of successful publications, as PublishBatch's contract states it, is that of the
      protocol's steps: each row published, confirmed and only then marked, in order. */
  lemma {:induction false} BatchIsProtocolRun(s: State, ids: seq<Id>, now: int)
    requires forall i :: 0 <= i < |ids| ==> ids[i] in s.db.outbox && s.db.outbox[ids[i]].publishedAt.None?
    requires forall i, j :: 0 <= i < j < |ids| ==> ids[i] != ids[j]
    ensures Run(s, PublishSteps(ids, now))
         == s.(db := s.db.(outbox := Marked(s.db.outbox, ids, now)),
               queue := s.queue + Copies(s.db.outbox, ids),
               confirmed := s.confirmed + Events(ids))
  {
    hide Do, Marked, MarkedRow, Run;
    if ids == [] {
      NoneMarked(s.db.outbox, now);
      assert s.queue + multiset{} == s.queue && s.confirmed + Events([]) == s.confirmed;
      NoSteps(s);
    } else {
      var n := |ids| - 1;
      BatchIsProtocolRun(s, ids[..n], now);
      var t := Run(s, PublishSteps(ids[..n], now));
      RunConcat(s, PublishSteps(ids[..n], now), [PublishRow(ids[n], true, true), MarkRow(ids[n], now)]);
      OneMore(s.db.outbox, ids, n, now);
      assert ids[..n + 1] == ids;
      OneRow(t, ids[n], now);
      assert Events(ids) == Events(ids[..n]) + {ids[n]};
    }
  }

  /** The protocol's steps of a batch that stops after `n` rows: those rows, and the publication that failed or
      whose row could not be marked. */
  function BatchSteps(ids: seq<Id>, n: nat, failed: Publication, now: int): seq<Step>
    requires n <= |ids|
  {
    PublishSteps(ids[..n], now) + (if n < |ids| then [PublishRow(ids[n], failed.arrives, failed.confirms)] else [])
  }

  /** Every end of PublishBatch, early exits included, leaves outbox and queue as a run of the protocol does:
      the contract of PublishBatch with `failed` as the publication after the last marked row. */
  lemma AnyBatchIsProtocolRun(s: State, ids: seq<Id>, n: nat, failed: Publication, now: int)
    requires n <= |ids|
    requires forall i :: 0 <= i < |ids| ==> ids[i] in s.db.outbox && s.db.outbox[ids[i]].publishedAt.None?
    requires forall i, j :: 0 <= i < j < |ids| ==> ids[i] != ids[j]
    ensures var t := Run(s, BatchSteps(ids, n, failed, now));
            var sent := s.queue + Copies(s.db.outbox, ids[..n]);
            && t.db.outbox == Marked(s.db.outbox, ids[..n], now)
            && t.queue == (if n < |ids| && failed.arrives
                           then sent + multiset{Message(s.db.outbox[ids[n]].payload, 0)} else sent)
            && t == s.(db := t.db, queue := t.queue, confirmed := t.confirmed)
  {
    hide Do, Marked, MarkedRow, Run, Copies, PublishSteps;
    BatchIsProtocolRun(s, ids[..n], now);
    var u := Run(s, PublishSteps(ids[..n], now));
    if n < |ids| {
      OneMore(s.db.outbox, ids, n, now);
      RunConcat(s, PublishSteps(ids[..n], now), [PublishRow(ids[n], failed.arrives, failed.confirms)]);
      OneStep(u, PublishRow(ids[n], failed.arrives, failed.confirms));
      FailedPublication(u, ids[n], failed);
    } else {
      assert PublishSteps(ids[..n], now) + [] == PublishSteps(ids[..n], now);
    }
  }

  lemma FailedPublication(s: State, event: Id, failed: Publication)
    requires event in s.db.outbox
    ensures var t := Do(s, PublishRow(event, failed.arrives, failed.confirms));
            && t == s.(queue := t.queue, confirmed := t.confirmed)
            && t.queue == if failed.arrives then s.queue + multiset{Message(s.db.outbox[event].payload, 0)} else s.queue
  {
  }

  // ----- draining

  lemma {:induction false} DistinctCount(ids: seq<Id>)
    requires forall i, j :: 0 <= i < j < |ids| ==> ids[i] != ids[j]
    ensures |Events(ids)| == |ids|
  {
    if ids == [] {
    } else {
      var n := |ids| - 1;
      DistinctCount(ids[..n]);
      assert Events(ids) == Events(ids[..n]) + {ids[n]};
    }
  }

  lemma StillPending(rows: OutboxTable, ids: seq<Id>, at: int)
    ensures UnpublishedTimes(Marked(rows, ids, at)).Keys == UnpublishedTimes(rows).Keys - Events(ids)
  {
  }

  lemma BatchSize(ids: seq<Id>, created: map<Id, int>, limit: nat)
    requires OldestFirst(ids, created, limit)
    ensures Events(ids) <= created.Keys && |Events(ids)| == if |created| <= limit then |created| else limit
  {
    DistinctCount(ids);
    assert |created| == |created.Keys|;
    Subset(Events(ids), created.Keys);
    if |ids| < limit {
      assert created.Keys == Events(ids);
    }
  }

  lemma Subset(a: set<Id>, b: set<Id>)
    requires a <= b
    ensures |a| <= |b| && |b - a| == |b| - |a|
  {
    assert b == a + (b - a);
  }

  /** Publishing an oldest-first batch takes exactly the batch off the unpublished rows: all of them if they
      are no more than the limit, and else as many as the limit says. */
  lemma BatchShrinks(rows: OutboxTable, ids: seq<Id>, limit: nat, at: int)
    requires OldestFirst(ids, UnpublishedTimes(rows), limit)
    ensures var pending := |UnpublishedTimes(rows)|;
            |UnpublishedTimes(Marked(rows, ids, at))| == if pending <= limit then 0 else pending - limit
  {
    hide OldestFirst, UnpublishedTimes, Marked, Events;
    var before, after := UnpublishedTimes(rows), UnpublishedTimes(Marked(rows, ids, at));
    StillPending(rows, ids, at);
    BatchSize(ids, before, limit);
    Subset(Events(ids), before.Keys);
    assert |after| == |after.Keys| && |before| == |before.Keys|;
  }

  /** Healthy calls drain the outbox in order: after n calls of batch size `limit`, k - n * limit of the k
      unpublished rows are left, so it is empty after ceil(k / limit) calls and not before. */
  lemma {:induction false} OutboxDrains(tables: seq<OutboxTable>, limit: nat, n: nat)
    requires n < |tables|
    requires forall i :: 0 <= i < |tables| - 1 ==> HealthyBatch(tables[i], tables[i + 1], limit)
    ensures var k := |UnpublishedTimes(tables[0])|;
            && |UnpublishedTimes(tables[n])| == (if k <= n * limit then 0 else k - n * limit)
            && (UnpublishedTimes(tables[n]) == map[] <==> k <= n * limit)
  {
    if n == 0 {
    } else {
      OutboxDrains(tables, limit, n - 1);
      assert HealthyBatch(tables[n - 1], tables[n - 1 + 1], limit);
      var ids, at :| OldestFirst(ids, UnpublishedTimes(tables[n - 1]), limit) && tables[n] == Marked(tables[n - 1],
                                                                                                     ids, at);
      BatchShrinks(tables[n - 1], ids, limit, at);
      assert n * limit == (n - 1) * limit + limit;
    }
  }
}
