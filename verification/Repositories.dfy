/**
  The remaining repositories and the fake exchange, updating their rows in place
  (src/modules/conversion/infrastructure, src/modules/pricing/infrastructure). A row lock or a lost
  connection is not modelled: a statement happens as a whole.
*/
module Repositories {
  import opened Common
  import opened Moneys
  import opened Conversions
  import opened Pricing
  import opened Tables
  import opened Transactions
  import opened Execution

  // ----- ORDER BY created_at LIMIT n

  /** `ids` are the `limit` oldest of the rows, oldest first; ties are broken in any way. */
  ghost predicate OldestFirst(ids: seq<Id>, created: map<Id, int>, limit: nat) {
    && (forall i :: 0 <= i < |ids| ==> ids[i] in created)
    && (forall i, j :: 0 <= i < j < |ids| ==> ids[i] != ids[j] && created[ids[i]] <= created[ids[j]])
    && |ids| <= limit
    && (forall k :: k in created && k !in ids ==>
          |ids| == limit && forall i :: 0 <= i < |ids| ==> created[ids[i]] <= created[k])
  }

  method Oldest(rest: set<Id>, created: map<Id, int>) returns (oldest: Id)
    requires rest != {} && rest <= created.Keys
    ensures oldest in rest && forall k :: k in rest ==> created[oldest] <= created[k]
  {
    oldest :| oldest in rest;
    var others := rest - {oldest};
    while others != {}
      invariant oldest in rest && others <= rest
      invariant forall k :: k in rest && k !in others ==> created[oldest] <= created[k]
      decreases |others|
    {
      var k :| k in others;
      if created[k] < created[oldest] {
        oldest := k;
      }
      others := others - {k};
    }
  }

  method TakeOldest(created: map<Id, int>, limit: nat) returns (ids: seq<Id>)
    ensures OldestFirst(ids, created, limit)
  {
    ids := [];
    var rest := created.Keys;
    while rest != {} && |ids| < limit
      invariant rest <= created.Keys && |ids| <= limit
      invariant forall k :: k in created ==> (k in rest <==> k !in ids)
      invariant forall i :: 0 <= i < |ids| ==> ids[i] in created
      invariant forall i, j :: 0 <= i < j < |ids| ==> ids[i] != ids[j] && created[ids[i]] <= created[ids[j]]
      invariant forall i, k :: 0 <= i < |ids| && k in rest ==> created[ids[i]] <= created[k]
      decreases |rest|
    {
      var k := Oldest(rest, created);
      assert k !in ids;
      ids := ids + [k];
      rest := rest - {k};
    }
  }

  // ----- quotes

  datatype SaveAcceptedResult = NotAccepted | Conflicting | Persisted(quote: QuoteRow)

  class QuoteRepository {
    var rows: QuoteTable

    constructor ()
      ensures rows == map[]
    {
      rows := map[];
    }

    method FindById(id: Id) returns (quote: Option<QuoteRow>)
      ensures quote == if id in rows then Some(rows[id]) else None
    {
      quote := if id in rows then Some(rows[id]) else None;
    }

    /** An upsert; an existing row only takes over status and acceptance time. The table's constraints refuse
        the row as a whole. */
    method Save(id: Id, q: QuoteRow) returns (error: Option<QuoteError>)
      modifies this
      ensures var row := if id in old(rows) then old(rows)[id].(status := q.status, acceptedAt := q.acceptedAt) else q;
              && error == (if !(Fits(row.source) && Fits(row.target)) then Some(ColumnOverflow)
                           else if !StoredQuote(row) then Some(CheckViolated) else None)
              && rows == if error.None? then old(rows)[id := row] else old(rows)
      ensures error.None? ==>
                && id in rows && (id !in old(rows) ==> rows[id] == q)
                && (id in old(rows) ==> rows[id].status == q.status && rows[id].acceptedAt == q.acceptedAt
                                        && old(rows)[id] == rows[id].(status := old(rows)[id].status,
                                                                      acceptedAt := old(rows)[id].acceptedAt))
                && var row := rows[id];
                && row.source.units > 0 && row.target.units > 0 && row.rate.coefficient > 0
                && row.source.asset != row.target.asset && row.createdAt < row.expiresAt
                && ((row.status == Active && row.acceptedAt.None?) || (row.status == Accepted && row.acceptedAt.Some?))
    {
      var row := q;
      if id in rows {
        row := rows[id].(status := q.status, acceptedAt := q.acceptedAt);
      }
      if !Fits(row.source) || !Fits(row.target) {
        return Some(ColumnOverflow);
      }
      if !StoredQuote(row) {
        return Some(CheckViolated);
      }
      rows := rows[id := row];
      error := None;
    }

    /** UPDATE ... WHERE id AND status = 'ACTIVE' AND expires_at >= now, for an already accepted aggregate. */
    method SaveAcceptedQuote(id: Id, quote: QuoteRow, now: int) returns (result: SaveAcceptedResult)
      modifies this
      ensures result == NotAccepted <==> quote.status != Accepted || quote.acceptedAt.None?
      ensures result == NotAccepted ==> rows == old(rows)
      ensures result != NotAccepted ==>
                match SaveAccepted(old(rows), id, quote.acceptedAt.value, now)
                case Some(after) => rows == after && id in after && result == Persisted(after[id])
                case None => rows == old(rows) && result == Conflicting
      ensures result.Persisted? <==>
                && quote.status == Accepted && quote.acceptedAt.Some?
                && id in old(rows) && old(rows)[id].status == Active && now <= old(rows)[id].expiresAt
      ensures result.Persisted? ==>
                && result.quote == old(rows)[id].(status := Accepted, acceptedAt := quote.acceptedAt)
                && rows == old(rows)[id := result.quote]
    {
      if quote.status != Accepted || quote.acceptedAt.None? {
        return NotAccepted;
      }
      if id !in rows || rows[id].status != Active || rows[id].expiresAt < now {
        return Conflicting;
      }
      rows := rows[id := rows[id].(status := Accepted, acceptedAt := quote.acceptedAt)];
      result := Persisted(rows[id]);
    }
  }

  // ----- conversions

  /** The CHECK constraints of the conversions table. */
  predicate ConversionChecks(c: ConversionRow) {
    c.source.units > 0 && c.target.units > 0 && c.source.asset != c.target.asset && Lifecycle(c)
  }

  /** The lifecycle check, on which columns are set. */
  predicate ChecksOf(status: Status, event: bool, completed: bool, reason: bool) {
    match status
    case Created => !event && !completed && !reason
    case FundsReserved => event && !completed && !reason
    case ExecutionRequested => event && !completed && !reason
    case Completed => event && completed && !reason
    case Failed => event && completed && reason
    case RequiresReconciliation => event && !completed && reason
  }

  predicate AllChecked(rows: ConversionTable) {
    forall id :: id in rows ==> ConversionChecks(rows[id])
  }

  class ConversionRepository {
    var rows: ConversionTable

    predicate Valid()
      reads this
    {
      AllChecked(rows)
    }

    constructor ()
      ensures rows == map[] && Valid()
    {
      rows := map[];
    }

    method FindById(id: Id) returns (row: Option<ConversionRow>)
      ensures row == if id in rows then Some(rows[id]) else None
    {
      row := if id in rows then Some(rows[id]) else None;
    }

    /** An upsert; the unique index on the quote id refuses a second conversion of one quote, and the table's
        checks any row that breaks them. */
    method Save(id: Id, c: ConversionRow) returns (saved: bool)
      requires Valid()
      modifies this
      ensures Valid()
      ensures saved <==> && (id in old(rows) || QuoteUnused(old(rows), id, c.quoteId))
                         && ConversionChecks(SaveConversion(old(rows), id, c)[id])
      ensures rows == if saved then SaveConversion(old(rows), id, c) else old(rows)
      ensures saved && id !in old(rows) ==> forall k :: k in old(rows) ==> old(rows)[k].quoteId != c.quoteId
      ensures !saved && id !in old(rows) && c.source.units > 0 && c.target.units > 0
              && c.source.asset != c.target.asset
              && ChecksOf(c.status, c.eventId.Some?, c.completedAt.Some?, c.failureReason.Some?) ==>
                exists k :: k in old(rows) && old(rows)[k].quoteId == c.quoteId
      ensures saved ==>
                && id in rows && (forall k :: k in rows && k != id ==> k in old(rows) && rows[k] == old(rows)[k])
                && rows[id].status == c.status && rows[id].eventId == c.eventId
                && rows[id].failureReason == c.failureReason && rows[id].completedAt == c.completedAt
                && var kept := if id in old(rows) then old(rows)[id] else c;
                && rows[id].quoteId == kept.quoteId && rows[id].userId == kept.userId && rows[id].source == kept.source
                && rows[id].target == kept.target && rows[id].createdAt == kept.createdAt
      ensures saved ==> rows[id].source.units > 0 && rows[id].target.units > 0
                        && rows[id].source.asset != rows[id].target.asset
      ensures saved ==> ChecksOf(rows[id].status, rows[id].eventId.Some?, rows[id].completedAt.Some?,
                                 rows[id].failureReason.Some?)
    {
      var row := c;
      if id in rows {
        row := rows[id].(status := c.status, eventId := c.eventId, failureReason := c.failureReason,
                         completedAt := c.completedAt);
      } else if !QuoteUnused(rows, id, c.quoteId) {
        return false;
      }
      if !ConversionChecks(row) {
        return false;
      }
      rows := rows[id := row];
      saved := true;
    }

    /** The row as the UPDATE returns it, or else as it is found; never a later status overwritten. */
    method MarkExecutionRequestedIfFundsReserved(id: Id, event: Id) returns (row: Option<ConversionRow>)
      requires Valid()
      modifies this
      ensures Valid()
      ensures rows.Keys == old(rows).Keys && forall k :: k in rows && k != id ==> rows[k] == old(rows)[k]
      ensures id in old(rows) ==>
                rows[id] == if old(rows)[id].status == FundsReserved && old(rows)[id].eventId == Some(event)
                            then old(rows)[id].(status := ExecutionRequested) else old(rows)[id]
      ensures match RequestIfReserved(old(rows), id, event)
              case Some(after) => rows == after && id in after && row == Some(after[id])
              case None => rows == old(rows) && row == if id in rows then Some(rows[id]) else None
    {
      if id in rows && rows[id].status == FundsReserved && rows[id].eventId == Some(event) {
        rows := rows[id := rows[id].(status := ExecutionRequested)];
        return Some(rows[id]);
      }
      row := FindById(id);
    }
  }

  // ----- outbox

  function UnpublishedTimes(rows: OutboxTable): map<Id, int> {
    map e | e in rows && rows[e].publishedAt.None? :: rows[e].createdAt
  }

  function MarkedRow(r: OutboxRow, at: int): OutboxRow {
    if r.publishedAt.None? then r.(publishedAt := Some(at)) else r
  }

  class OutboxRepository {
    var rows: OutboxTable

    constructor ()
      ensures rows == map[]
    {
      rows := map[];
    }

    /** A plain insert: the primary key refuses a second row. */
    method Enqueue(event: Id, row: OutboxRow) returns (stored: bool)
      modifies this
      ensures stored <==> event !in old(rows)
      ensures rows == if stored then old(rows)[event := row] else old(rows)
    {
      stored := event !in rows;
      if stored {
        rows := rows[event := row];
      }
    }

    method FindUnpublished(limit: nat) returns (batch: seq<Id>)
      ensures OldestFirst(batch, UnpublishedTimes(rows), limit)
      ensures |batch| <= limit
      ensures forall i :: 0 <= i < |batch| ==> batch[i] in rows && rows[batch[i]].publishedAt.None?
      ensures forall i, j :: 0 <= i < j < |batch| ==>
                batch[i] != batch[j] && rows[batch[i]].createdAt <= rows[batch[j]].createdAt
      ensures forall e :: e in rows && rows[e].publishedAt.None? && e !in batch ==>
                |batch| == limit && forall i :: 0 <= i < |batch| ==> rows[batch[i]].createdAt <= rows[e].createdAt
    {
      batch := TakeOldest(UnpublishedTimes(rows), limit);
    }

    /** UPDATE ... WHERE id AND published_at IS NULL: a row keeps its first publication time. */
    method MarkPublished(event: Id, at: int)
      modifies this
      ensures rows == if event in old(rows) then old(rows)[event := MarkedRow(old(rows)[event], at)] else old(rows)
      ensures rows.Keys == old(rows).Keys && forall e :: e in rows && e != event ==> rows[e] == old(rows)[e]
      ensures event in old(rows) ==>
                && rows[event].payload == old(rows)[event].payload
                && rows[event].createdAt == old(rows)[event].createdAt
                && rows[event].publishedAt == if old(rows)[event].publishedAt.Some? then old(rows)[event].publishedAt
                                              else Some(at)
    {
      if event in rows && rows[event].publishedAt.None? {
        rows := rows[event := rows[event].(publishedAt := Some(at))];
      } else if event in rows {
        assert rows[event := rows[event]] == rows;
      }
    }
  }

  // ----- idempotency records

  datatype Lookup =
    | Missing
    | InProgress(requestHash: Id)
    | Finished(requestHash: Id, answer: Response)

  function LookupOf(records: RecordTable, key: Id): Lookup {
    if key !in records then Missing
    else match records[key].response
         case None => InProgress(records[key].requestHash)
         case Some(answer) => Finished(records[key].requestHash, answer)
  }

  /** Records older than `before`. */
  function OlderThan(records: RecordTable, before: int): map<Id, int> {
    map k | k in records && records[k].createdAt < before :: records[k].createdAt
  }

  class IdempotencyRepository {
    var records: RecordTable

    constructor ()
      ensures records == map[]
    {
      records := map[];
    }

    method Find(key: Id) returns (found: Lookup)
      ensures found == LookupOf(records, key)
      ensures key !in records <==> found == Missing
      ensures key in records ==>
                found == match records[key].response
                         case None => InProgress(records[key].requestHash)
                         case Some(answer) => Finished(records[key].requestHash, answer)
    {
      if key !in records {
        return Missing;
      }
      var r := records[key];
      found := if r.response.None? then InProgress(r.requestHash) else Finished(r.requestHash, r.response.value);
    }

    /** INSERT ... ON CONFLICT DO NOTHING. */
    method TryBegin(key: Id, requestHash: Id, now: int) returns (claimed: bool)
      modifies this
      ensures claimed <==> key !in old(records)
      ensures records == InsertIfAbsent(old(records), key, Record(requestHash, None, now))
      ensures records == if claimed then old(records)[key := Record(requestHash, None, now)] else old(records)
    {
      claimed := key !in records;
      if claimed {
        records := records[key := Record(requestHash, None, now)];
      }
    }

    method Complete(key: Id, answer: Response) returns (completed: bool)
      modifies this
      ensures match CompleteRecord(old(records), key, answer)
              case Some(after) => completed && records == after
              case None => !completed && records == old(records)
      ensures completed <==> key in old(records)
      ensures completed ==> records == old(records)[key := old(records)[key].(response := Some(answer))]
    {
      completed := key in records;
      if completed {
        records := records[key := records[key].(response := Some(answer))];
      }
    }

    /** Deletes the oldest `limit` expired records, completed or not, and nothing else. */
    method DeleteExpired(before: int, limit: nat) returns (deleted: seq<Id>)
      modifies this
      ensures OldestFirst(deleted, OlderThan(old(records), before), limit)
      ensures records == old(records) - (set i | 0 <= i < |deleted| :: deleted[i])
      ensures |deleted| <= limit
      ensures forall i :: 0 <= i < |deleted| ==>
                deleted[i] in old(records) && old(records)[deleted[i]].createdAt < before && deleted[i] !in records
      ensures forall k :: k in old(records) && old(records)[k].createdAt >= before ==>
                k in records && records[k] == old(records)[k]
      ensures forall k :: k in records ==> k in old(records) && records[k] == old(records)[k]
      ensures forall k :: k in records && records[k].createdAt < before ==>
                |deleted| == limit
                && forall i :: 0 <= i < |deleted| ==> old(records)[deleted[i]].createdAt <= records[k].createdAt
    {
      deleted := TakeOldest(OlderThan(records, before), limit);
      records := records - (set i | 0 <= i < |deleted| :: deleted[i]);
      assert forall k :: k in records && records[k].createdAt < before ==>
               k in OlderThan(old(records), before) && k !in deleted;
    }
  }

  // ----- processed markers

  class ProcessedMessageRepository {
    var markers: MarkerTable

    constructor ()
      ensures markers == map[]
    {
      markers := map[];
    }

    method Exists(event: Id) returns (found: bool)
      ensures found <==> event in markers
    {
      found := event in markers;
    }

    /** INSERT ... ON CONFLICT DO NOTHING: true for the one caller that claims the event. */
    method TryRecord(event: Id, m: Marker) returns (claimed: bool)
      modifies this
      ensures claimed <==> event !in old(markers)
      ensures markers == InsertIfAbsent(old(markers), event, m)
      ensures markers == if claimed then old(markers)[event := m] else old(markers)
    {
      claimed := event !in markers;
      if claimed {
        markers := markers[event := m];
      }
    }
  }

  // ----- the fake exchange

  datatype ExecutionResult = ExecutionResult(outcome: Outcome, reason: Option<string>)

  class FakeExchange {
    var orders: ExchangeTable
    var defaultMode: Outcome
    var perOrderMode: map<Id, Outcome>

    constructor (mode: Outcome)
      ensures orders == map[] && defaultMode == mode && perOrderMode == map[]
    {
      orders, defaultMode, perOrderMode := map[], mode, map[];
    }

    /** What a new order of this event would be answered now. */
    function Mode(event: Id): Outcome
      reads this
    {
      if event in perOrderMode then perOrderMode[event] else defaultMode
    }

    method SetMode(mode: Outcome)
      modifies this`defaultMode
      ensures forall e :: Mode(e) == if e in perOrderMode then old(Mode(e)) else mode
    {
      defaultMode := mode;
    }

    method SetModeForClientOrder(event: Id, mode: Outcome)
      modifies this`perOrderMode
      ensures forall e :: Mode(e) == if e == event then mode else old(Mode(e))
    {
      perOrderMode := perOrderMode[event := mode];
    }

    /** Insert unless the order exists, read back, compare the command: the first insert decides. */
    method Execute(p: Payload) returns (result: Option<ExecutionResult>)
      modifies this`orders
      ensures match PlaceOrder(old(orders), p, old(Mode(p.eventId)))
              case Err(_) => orders == old(orders) && result.None?
              case Ok(after) =>
                && orders == after
                && result == match ReadResult(after, p)
                             case Executed(o, reason) => Some(ExecutionResult(o, reason))
                             case _ => None
      ensures forall e :: e in old(orders) ==> e in orders && orders[e] == old(orders)[e]
      ensures forall e :: e in orders && e !in old(orders) ==> e == p.eventId
      ensures result.Some? ==>
                && p.eventId in orders
                && var o := orders[p.eventId];
                && o.conversionId == p.conversionId && o.userId == p.userId
                && o.sourceAsset == p.sourceAsset && o.targetAsset == p.targetAsset
                && Numeric(p.sourceAmount) == Ok(o.sourceAmount) && Numeric(p.targetAmount) == Ok(o.targetAmount)
                && result.value == ExecutionResult(o.outcome, o.reason)
      ensures result.None? ==>
                || Numeric(p.sourceAmount).Err? || Numeric(p.targetAmount).Err?
                || (p.eventId in old(orders)
                    && var o := old(orders)[p.eventId];
                    !(o.conversionId == p.conversionId && o.userId == p.userId
                      && o.sourceAsset == p.sourceAsset && o.targetAsset == p.targetAsset
                      && Numeric(p.sourceAmount) == Ok(o.sourceAmount)
                       && Numeric(p.targetAmount) == Ok(o.targetAmount)))
      ensures p.eventId in orders && p.eventId !in old(orders) ==>
                && orders[p.eventId].outcome == old(Mode(p.eventId))
                && orders[p.eventId].reason == match old(Mode(p.eventId))
                                               case Success => None
                                               case Failure => Some("simulated_exchange_failure")
                                               case Unknown => Some("simulated_exchange_timeout")
    {
      var mode := Mode(p.eventId);
      var source, target := Numeric(p.sourceAmount), Numeric(p.targetAmount);
      if source.Err? || target.Err? {
        return None;
      }
      if p.eventId !in orders {
        orders := orders[p.eventId := ExchangeRow(p.conversionId, p.userId, p.sourceAsset, p.targetAsset,
                                                  source.value, target.value, mode, ExchangeReason(mode))];
      }
      var row := orders[p.eventId];
      result := if SameCommand(p, row) then Some(ExecutionResult(row.outcome, row.reason)) else None;
    }
  }
}
