/**
  Quotes (src/modules/pricing/domain/quote.ts, src/modules/pricing/application/create-quote.use-case.ts)
  and their conditional acceptance (src/modules/pricing/infrastructure/prisma-quote.repository.ts).
*/
module Pricing {
  import opened Common
  import opened Decimals
  import opened Moneys

  const QUOTE_TTL_MS := 20000

  datatype QuoteStatus = Active | Accepted | Expired

  datatype QuoteRow = QuoteRow(
    userId: Id,
    source: Money,
    target: Money,
    rate: Rate,
    createdAt: int,
    expiresAt: int,
    status: QuoteStatus,
    acceptedAt: Option<int>)

  datatype QuoteError =
    | InvalidAmount(reason: MoneyError)
    | UnsupportedPair
    | ZeroAmount
    | AlreadyAccepted
    | QuoteExpired
    | ColumnOverflow
    | CheckViolated

  type QuoteTable = map<Id, QuoteRow>

  /** The CHECK constraints of the quotes table, with its NUMERIC(38,18) columns. */
  predicate StoredQuote(q: QuoteRow) {
    && q.source.units > 0 && q.target.units > 0 && q.rate.coefficient > 0
    && Fits(q.source) && Fits(q.target)
    && q.source.asset != q.target.asset
    && q.status != Expired && (q.status == Accepted <==> q.acceptedAt.Some?)
    && q.createdAt < q.expiresAt
  }

  /** The quote the create use case builds from a request, before it is saved. */
  function CreateQuote(user: Id, text: string, from: Asset, to: Asset, now: int): Result<QuoteRow, QuoteError> {
    match Of(text, from)
    case Err(e) => Err(InvalidAmount(e))
    case Ok(source) =>
      match RateFor(from, to)
      case None => Err(UnsupportedPair)
      case Some(rate) =>
        if source.units == 0 || Convert(source, rate, to).units == 0 then Err(ZeroAmount)
        else Ok(QuoteRow(user, source, Convert(source, rate, to), rate, now, now + QUOTE_TTL_MS, Active, None))
  }

  function SaveNewQuote(quotes: QuoteTable, id: Id, q: QuoteRow): Result<QuoteTable, QuoteError> {
    if Fits(q.source) && Fits(q.target) then Ok(quotes[id := q]) else Err(ColumnOverflow)
  }

  predicate IsExpired(q: QuoteRow, now: int) {
    q.status == Active && now > q.expiresAt
  }

  /** Quote.accept on the in-memory aggregate. */
  function AcceptInMemory(q: QuoteRow, now: int): Result<QuoteRow, QuoteError> {
    if q.status == Accepted then Err(AlreadyAccepted)
    else if IsExpired(q, now) then Err(QuoteExpired)
    else Ok(q.(status := Accepted, acceptedAt := Some(now)))
  }

  /** saveAccepted: UPDATE ... WHERE id, status = 'ACTIVE' and expires_at >= now. */
  function SaveAccepted(quotes: QuoteTable, id: Id, acceptedAt: int, now: int): Option<QuoteTable> {
    if id in quotes && quotes[id].status == Active && quotes[id].expiresAt >= now
    then Some(quotes[id := quotes[id].(status := Accepted, acceptedAt := Some(acceptedAt))])
    else None
  }

  class Quote {
    const terms: QuoteRow
    var currentStatus: QuoteStatus
    var acceptedAtValue: Option<int>

    function Row(): QuoteRow
      reads this
    {
      terms.(status := currentStatus, acceptedAt := acceptedAtValue)
    }

    constructor Reconstitute(row: QuoteRow)
      ensures Row() == row
    {
      terms, currentStatus, acceptedAtValue := row, row.status, row.acceptedAt;
    }

    /** The status shown to clients: an ACTIVE quote past its expiry shows as EXPIRED. */
    function StatusAt(now: int): QuoteStatus
      reads this
    {
      if currentStatus == Accepted then Accepted
      else if currentStatus == Active && now > terms.expiresAt then Expired
      else Active
    }

    method Accept(now: int) returns (error: Option<QuoteError>)
      modifies this
      ensures match AcceptInMemory(old(Row()), now)
              case Ok(row) => Row() == row && error == None
              case Err(e) => Row() == old(Row()) && error == Some(e)
      ensures old(currentStatus) != Expired ==> (error == None <==> old(StatusAt(now)) == Active)
      ensures old(currentStatus) != Expired ==>
                && (error == Some(AlreadyAccepted) <==> old(StatusAt(now)) == Accepted)
                && (error == Some(QuoteExpired) <==> old(StatusAt(now)) == Expired)
      ensures error == Some(AlreadyAccepted) <==> old(currentStatus) == Accepted
      ensures error == Some(QuoteExpired) <==> old(currentStatus) == Active && now > terms.expiresAt
      ensures error in {None, Some(AlreadyAccepted), Some(QuoteExpired)}
      ensures error == None ==> currentStatus == Accepted && acceptedAtValue == Some(now)
      ensures error != None ==> currentStatus == old(currentStatus) && acceptedAtValue == old(acceptedAtValue)
    {
      if currentStatus == Accepted {
        return Some(AlreadyAccepted);
      }
      if currentStatus == Active && now > terms.expiresAt {
        return Some(QuoteExpired);
      }
      currentStatus, acceptedAtValue := Accepted, Some(now);
      error := None;
    }
  }

  /** A target of at least one minor unit takes a product with more digits than are cut off. */
  lemma ZeroTargetIff(m: Money, rate: Rate, to: Asset)
    requires 0 <= Shift(m.asset, rate, to) <= PRECISION
    ensures Convert(m, rate, to).units == 0 <==> m.units * rate.coefficient < Pow10(Shift(m.asset, rate, to))
    ensures Convert(m, rate, to).asset == to
  {
    hide RoundSig, Pow10;
    var product, shift := m.units * rate.coefficient, Shift(m.asset, rate, to);
    QuotientBounds(RoundSig(product, PRECISION), Pow10(shift));
    if product < Pow10(shift) {
      PowMonotone(shift, PRECISION);
      RoundSigFits(product, PRECISION);
    } else {
      BoundSurvivesRounding(product, shift);
    }
  }

  /** The answer to every request: the requester's own quote of the amount as it reads, at the rate of its pair
      and for twenty seconds from now; or the one error that fits. A target of zero is one whose exact product is
      less than a minor unit. */
  lemma RequestsAreAnswered(user: Id, text: string, from: Asset, to: Asset, now: int)
    ensures match CreateQuote(user, text, from, to, now)
            case Ok(q) =>
              && q.userId == user && Of(text, from) == Ok(q.source) && q.source.asset == from
              && q.target.asset == to && from != to
              && (from == USDT ==> q.rate == Rate(161, 7) && q.source.units * 161 >= 100000)
              && (from == BTC ==> q.rate == Rate(62111801242236, 9)
                                  && q.source.units * 62111801242236 >= 100000000000)
              && q.source.units > 0 && q.target.units > 0
              && q.createdAt == now && q.expiresAt == now + 20000 && q.status == Active && q.acceptedAt == None
            case Err(InvalidAmount(e)) => Of(text, from) == Err(e)
            case Err(e) =>
              && Of(text, from).Ok?
              && if from == to then e == UnsupportedPair
                 else
                   && e == ZeroAmount
                   && if from == USDT then Of(text, from).value.units * 161 < 100000
                      else Of(text, from).value.units * 62111801242236 < 100000000000
  {
    hide ParseUnits, Convert, Pow10;
    if Of(text, from).Ok? && from != to {
      PowerTable();
      ZeroTargetIff(Of(text, from).value, RateFor(from, to).value, to);
    }
  }

  /** Every quote that can be saved satisfies the table's constraints, quotes a target that is the exact
      product rounded down, and is not worth more than its source. */
  lemma SavedQuoteIsSound(user: Id, text: string, from: Asset, to: Asset, now: int, quotes: QuoteTable, id: Id)
    requires CreateQuote(user, text, from, to, now).Ok?
    requires SaveNewQuote(quotes, id, CreateQuote(user, text, from, to, now).value).Ok?
    ensures var q := CreateQuote(user, text, from, to, now).value;
            && StoredQuote(q) && Worth(q.target) <= Worth(q.source)
            && q.target.units == ExactFloor(q.source, q.rate, to)
            && q.target.units == if from == USDT then q.source.units * 161 / 100000
                                 else q.source.units * 62111801242236 / 100000000000
  {
    hide FitsColumn, Worth, Rescale, RoundSig;
    var q := CreateQuote(user, text, from, to, now).value;
    QuoteGainsNothing(q.source, to);
    TargetIsExactFloor(q.source, to);
    FloorsInNumbers(q.source, to);
  }

  lemma FloorsInNumbers(m: Money, to: Asset)
    requires RateFor(m.asset, to).Some?
    ensures ExactFloor(m, RateFor(m.asset, to).value, to)
         == if m.asset == USDT then m.units * 161 / 100000 else m.units * 62111801242236 / 100000000000
  {
    hide Pow10;
    PowerTable();
  }

  lemma TargetIsExactFloor(m: Money, to: Asset)
    requires RateFor(m.asset, to).Some? && Fits(Convert(m, RateFor(m.asset, to).value, to))
    ensures Convert(m, RateFor(m.asset, to).value, to).units == ExactFloor(m, RateFor(m.asset, to).value, to)
  {
    hide FitsColumn;
    FloorIsExact(m, RateFor(m.asset, to).value, to);
  }

  /** The exact product rounded down fits its column exactly when the rounded one does. */
  lemma FloorFitsToo(m: Money, to: Asset)
    requires RateFor(m.asset, to).Some?
    ensures var rate := RateFor(m.asset, to).value;
            Fits(Convert(m, rate, to)) <==> FitsColumn(ExactFloor(m, rate, to), to)
  {
    hide RoundSig, Pow10;
    var rate := RateFor(m.asset, to).value;
    var product, shift, digits := m.units * rate.coefficient, Shift(m.asset, rate, to), 20 + to.Scale();
    if Fits(Convert(m, rate, to)) {
      FloorIsExact(m, rate, to);
    } else if product / Pow10(shift) < Pow10(digits) {
      QuotientBounds(product, Pow10(shift));
      MulMonotone(product / Pow10(shift) + 1, Pow10(digits), Pow10(shift));
      PowSum(digits, shift);
      PowMonotone(digits + shift, PRECISION);
      RoundSigFits(product, PRECISION);
      assert false;
    }
  }

  /** The target of an amount at the rate of its pair, rounded down. */
  function Quoted(m: Money): Money {
    if m.asset == USDT then Money(m.units * 161 / 100000, BTC)
    else Money(m.units * 62111801242236 / 100000000000, USDT)
  }

  /** A request is created and saved if and only if its text reads as an amount, its assets differ, and both that
      amount and its exact target, which must not be zero, fit their columns. */
  lemma RequestIsStoredIff(user: Id, text: string, from: Asset, to: Asset, now: int, quotes: QuoteTable, id: Id)
    ensures var q := CreateQuote(user, text, from, to, now);
            (q.Ok? && SaveNewQuote(quotes, id, q.value).Ok?)
            <==> (&& Of(text, from).Ok? && from != to
                  && var m := Of(text, from).value;
                  Quoted(m).units > 0 && Fits(m) && Fits(Quoted(m)))
  {
    hide FitsColumn, ParseUnits, Convert, ExactFloor;
    RequestsAreAnswered(user, text, from, to, now);
    if Of(text, from).Ok? && from != to {
      var m := Of(text, from).value;
      FloorsInNumbers(m, to);
      FloorFitsToo(m, to);
    }
  }

  /** On the row it was loaded from, the in-memory check and the SQL predicate decide alike, and they
      produce the same row. */
  lemma AcceptanceAgrees(quotes: QuoteTable, id: Id, now: int)
    requires id in quotes && quotes[id].status != Expired
    ensures match AcceptInMemory(quotes[id], now)
            case Ok(q) => SaveAccepted(quotes, id, now, now) == Some(quotes[id := q])
            case Err(_) => SaveAccepted(quotes, id, now, now) == None
  {
  }

  /** A saved quote can be accepted, in memory and by the conditional update, for exactly twenty seconds. */
  lemma QuoteLivesTwentySeconds(user: Id, text: string, from: Asset, to: Asset, made: int, quotes: QuoteTable,
                                id: Id, now: int)
    requires CreateQuote(user, text, from, to, made).Ok?
    requires SaveNewQuote(quotes, id, CreateQuote(user, text, from, to, made).value).Ok?
    ensures var q := CreateQuote(user, text, from, to, made).value;
            var saved := SaveNewQuote(quotes, id, q).value;
            && (AcceptInMemory(q, now).Ok? <==> now <= made + 20000)
            && (SaveAccepted(saved, id, now, now).Some? <==> now <= made + 20000)
            && (SaveAccepted(saved, id, now, now).Some? ==>
                  SaveAccepted(SaveAccepted(saved, id, now, now).value, id, now, now).None?)
  {
    hide Of, Convert, FitsColumn;
  }
}
