/**
  The conversion lifecycle (src/modules/conversion/domain/conversion.ts): the transitions as functions
  on rows, and the aggregate that performs them on its fields.
*/
module Conversions {
  import opened Common
  import opened Moneys

  datatype Status =
    | Created
    | FundsReserved
    | ExecutionRequested
    | Completed
    | Failed
    | RequiresReconciliation

  datatype Outcome = Success | Failure | Unknown

  datatype ConversionRow = ConversionRow(
    quoteId: Id,
    userId: Id,
    source: Money,
    target: Money,
    status: Status,
    eventId: Option<Id>,
    createdAt: int,
    completedAt: Option<int>,
    failureReason: Option<string>)

  datatype ConversionError = InvalidConversion | InvalidTransition | BoundToOtherEvent | ConflictingResult

  predicate Terminal(s: Status) {
    s.Completed? || s.Failed? || s.RequiresReconciliation?
  }

  /** Statuses in which the source amount is held in the wallet's reserved column. */
  predicate Holds(s: Status) {
    s.FundsReserved? || s.ExecutionRequested? || s.RequiresReconciliation?
  }

  function Rank(s: Status): nat {
    match s
    case Created => 0
    case FundsReserved => 1
    case ExecutionRequested => 2
    case RequiresReconciliation => 3
    case Completed => 4
    case Failed => 4
  }

  /** The result a terminal status stands for. */
  function OutcomeOf(s: Status): Outcome {
    match s
    case Completed => Success
    case Failed => Failure
    case _ => Unknown
  }

  /** The lifecycle CHECK constraint of the conversions table. */
  predicate Lifecycle(c: ConversionRow) {
    match c.status
    case Created => c.eventId.None? && c.completedAt.None? && c.failureReason.None?
    case FundsReserved => c.eventId.Some? && c.completedAt.None? && c.failureReason.None?
    case ExecutionRequested => c.eventId.Some? && c.completedAt.None? && c.failureReason.None?
    case Completed => c.eventId.Some? && c.completedAt.Some? && c.failureReason.None?
    case Failed => c.eventId.Some? && c.completedAt.Some? && c.failureReason.Some?
    case RequiresReconciliation => c.eventId.Some? && c.completedAt.None? && c.failureReason.Some?
  }

  function Create(quoteId: Id, userId: Id, source: Money, target: Money, at: int): Result<ConversionRow,
                  ConversionError> {
    if source.units == 0 || target.units == 0 || source.asset == target.asset then Err(InvalidConversion)
    else Ok(ConversionRow(quoteId, userId, source, target, Created, None, at, None, None))
  }

  function MarkFundsReserved(c: ConversionRow): Result<ConversionRow, ConversionError> {
    if c.status != Created then Err(InvalidTransition) else Ok(c.(status := FundsReserved))
  }

  function BindExecutionEvent(c: ConversionRow, event: Id): Result<ConversionRow, ConversionError> {
    if c.status != FundsReserved then Err(InvalidTransition)
    else if c.eventId.Some? && c.eventId != Some(event) then Err(BoundToOtherEvent)
    else Ok(c.(eventId := Some(event)))
  }

  function MarkExecutionRequested(c: ConversionRow, event: Id): Result<ConversionRow, ConversionError> {
    if c.status != FundsReserved then Err(InvalidTransition)
    else if c.eventId.Some? && c.eventId != Some(event) then Err(BoundToOtherEvent)
    else Ok(c.(eventId := Some(event), status := ExecutionRequested))
  }

  function ReasonOr(reason: Option<string>, fallback: string): Option<string> {
    if reason.Some? then reason else Some(fallback)
  }

  function Complete(c: ConversionRow, at: int): ConversionRow {
    c.(status := Completed, completedAt := Some(at), failureReason := None)
  }

  function Fail(c: ConversionRow, at: int, reason: Option<string>): ConversionRow {
    c.(status := Failed, completedAt := Some(at), failureReason := ReasonOr(reason, "execution_failed"))
  }

  /** Applying an exchange result: duplicates of a terminal result are no-ops, conflicting ones throw. */
  function ApplyResult(c: ConversionRow, outcome: Outcome, at: int, reason: Option<string>)
    : Result<ConversionRow, ConversionError>
  {
    if c.status == RequiresReconciliation then
      match outcome
      case Unknown => Ok(c)
      case Success => Ok(Complete(c, at))
      case Failure => Ok(Fail(c, at, reason))
    else if Terminal(c.status) then
      if outcome == OutcomeOf(c.status) then Ok(c) else Err(ConflictingResult)
    else if c.status != ExecutionRequested then Err(InvalidTransition)
    else
      match outcome
      case Success => Ok(Complete(c, at))
      case Failure => Ok(Fail(c, at, reason))
      case Unknown => Ok(c.(status := RequiresReconciliation, failureReason := ReasonOr(reason, "execution_unknown")))
  }

  /** Nothing but the lifecycle columns ever changes. */
  predicate SameIdentity(a: ConversionRow, b: ConversionRow) {
    a.(status := b.status, completedAt := b.completedAt, failureReason := b.failureReason) == b
  }

  class Conversion {
    const quoteId: Id
    const userId: Id
    const sourceAmount: Money
    const targetAmount: Money
    const createdAt: int
    var currentStatus: Status
    var exchangeExecutionId: Option<Id>
    var completedAtValue: Option<int>
    var failureReasonValue: Option<string>

    function Row(): ConversionRow
      reads this
    {
      ConversionRow(quoteId, userId, sourceAmount, targetAmount, currentStatus, exchangeExecutionId,
                    createdAt, completedAtValue, failureReasonValue)
    }

    constructor Reconstitute(row: ConversionRow)
      ensures Row() == row
    {
      quoteId, userId, sourceAmount, targetAmount := row.quoteId, row.userId, row.source, row.target;
      createdAt, currentStatus, exchangeExecutionId := row.createdAt, row.status, row.eventId;
      completedAtValue, failureReasonValue := row.completedAt, row.failureReason;
    }

    /** Conversion.create. */
    static method CreateFor(quoteId: Id, userId: Id, source: Money, target: Money, at: int)
      returns (result: Result<Conversion, ConversionError>)
      ensures result.Ok? <==> Create(quoteId, userId, source, target, at).Ok?
      ensures result.Ok? <==> source.units > 0 && target.units > 0 && source.asset != target.asset
      ensures match result
              case Ok(c) =>
                && fresh(c) && Create(quoteId, userId, source, target, at) == Ok(c.Row())
                && c.Row() == ConversionRow(quoteId, userId, source, target, Created, None, at, None, None)
              case Err(e) => e == InvalidConversion
    {
      if source.units == 0 || target.units == 0 || source.asset == target.asset {
        return Err(InvalidConversion);
      }
      var c := new Conversion.Reconstitute(
        ConversionRow(quoteId, userId, source, target, Created, None, at, None, None));
      result := Ok(c);
    }

    method ReserveFunds() returns (error: Option<ConversionError>)
      modifies this
      ensures match MarkFundsReserved(old(Row()))
              case Ok(row) => Row() == row && error == None
              case Err(e) => Row() == old(Row()) && error == Some(e)
      ensures error == if old(currentStatus) == Created then None else Some(InvalidTransition)
      ensures Row() == if error == None then old(Row()).(status := FundsReserved) else old(Row())
    {
      if currentStatus != Created {
        return Some(InvalidTransition);
      }
      currentStatus := FundsReserved;
      error := None;
    }

    method BindEvent(event: Id) returns (error: Option<ConversionError>)
      modifies this
      ensures match BindExecutionEvent(old(Row()), event)
              case Ok(row) => Row() == row && error == None
              case Err(e) => Row() == old(Row()) && error == Some(e)
      ensures error == if old(currentStatus) != FundsReserved then Some(InvalidTransition)
                       else if old(exchangeExecutionId) in {None, Some(event)} then None else Some(BoundToOtherEvent)
      ensures Row() == if error == None then old(Row()).(eventId := Some(event)) else old(Row())
    {
      if currentStatus != FundsReserved {
        return Some(InvalidTransition);
      }
      if exchangeExecutionId != None && exchangeExecutionId != Some(event) {
        return Some(BoundToOtherEvent);
      }
      exchangeExecutionId := Some(event);
      error := None;
    }

    method RequestExecution(event: Id) returns (error: Option<ConversionError>)
      modifies this
      ensures match MarkExecutionRequested(old(Row()), event)
              case Ok(row) => Row() == row && error == None
              case Err(e) => Row() == old(Row()) && error == Some(e)
      ensures error == if old(currentStatus) != FundsReserved then Some(InvalidTransition)
                       else if old(exchangeExecutionId) in {None, Some(event)} then None else Some(BoundToOtherEvent)
      ensures Row() == if error == None then old(Row()).(eventId := Some(event), status := ExecutionRequested)
                       else old(Row())
    {
      if currentStatus != FundsReserved {
        return Some(InvalidTransition);
      }
      if exchangeExecutionId != None && exchangeExecutionId != Some(event) {
        return Some(BoundToOtherEvent);
      }
      exchangeExecutionId := Some(event);
      currentStatus := ExecutionRequested;
      error := None;
    }

    method ApplyExecutionResult(outcome: Outcome, at: int, reason: Option<string>)
      returns (error: Option<ConversionError>)
      modifies this
      ensures match ApplyResult(old(Row()), outcome, at, reason)
              case Ok(row) => Row() == row && error == None
              case Err(e) => Row() == old(Row()) && error == Some(e)
      ensures error == match old(currentStatus)
                       case Created => Some(InvalidTransition)
                       case FundsReserved => Some(InvalidTransition)
                       case Completed => if outcome == Success then None else Some(ConflictingResult)
                       case Failed => if outcome == Failure then None else Some(ConflictingResult)
                       case _ => None
      ensures error != None || old(currentStatus) in {Completed, Failed} ==> Row() == old(Row())
      ensures old(currentStatus) in {ExecutionRequested, RequiresReconciliation} ==>
                match outcome
                case Success =>
                  Row() == old(Row()).(status := Completed, completedAt := Some(at), failureReason := None)
                case Failure =>
                  Row() == old(Row()).(status := Failed, completedAt := Some(at),
                                       failureReason := if reason.Some? then reason else Some("execution_failed"))
                case Unknown =>
                  Row() == if old(currentStatus) == RequiresReconciliation then old(Row())
                           else old(Row()).(status := RequiresReconciliation,
                                            failureReason := if reason.Some? then reason
                                                             else Some("execution_unknown"))
    {
      error := None;
      if currentStatus == RequiresReconciliation {
        if outcome == Unknown {
          return;
        }
      } else if Terminal(currentStatus) {
        return if outcome == OutcomeOf(currentStatus) then None else Some(ConflictingResult);
      } else if currentStatus != ExecutionRequested {
        return Some(InvalidTransition);
      }
      match outcome {
        case Success =>
          currentStatus, completedAtValue, failureReasonValue := Completed, Some(at), None;
        case Failure =>
          currentStatus, completedAtValue := Failed, Some(at);
          failureReasonValue := ReasonOr(reason, "execution_failed");
        case Unknown =>
          currentStatus := RequiresReconciliation;
          failureReasonValue := ReasonOr(reason, "execution_unknown");
      }
    }
  }

  /** Every row a transition produces satisfies the table's lifecycle constraint, keeps the identity
      columns and never lowers the rank; COMPLETED and FAILED rows are final. */
  lemma ResultKeepsLifecycle(c: ConversionRow, outcome: Outcome, at: int, reason: Option<string>)
    requires Lifecycle(c) && ApplyResult(c, outcome, at, reason).Ok?
    ensures var r := ApplyResult(c, outcome, at, reason).value;
            && Lifecycle(r) && SameIdentity(c, r) && Rank(c.status) <= Rank(r.status)
            && Terminal(r.status) && ((r.status.Completed? || r.status.Failed?) ==> OutcomeOf(r.status) == outcome)
            && ((c.status.Completed? || c.status.Failed?) ==> r == c)
            && (outcome == OutcomeOf(r.status) || c.status == r.status)
            && (r != c && r.completedAt.Some? ==> r.completedAt == Some(at))
            && (r != c && r.failureReason.Some? && reason.Some? ==> r.failureReason == reason)
  {
  }
}
