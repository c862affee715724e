/** A run of the system from its start to a settlement that the database refuses. */
module Refusal {
  import opened Common
  import opened Decimals
  import opened DecimalText
  import opened Moneys
  import opened Wallets
  import opened Conversions
  import opened Pricing
  import opened Tables
  import opened Transactions
  import opened Execution
  import opened Ledger
  import opened AcceptProof
  import opened Protocol
  import opened StateProof
  import opened Guarantees
  import opened Acceptance
  import opened Solo
  import opened Progress

  const USDT_WALLET := WalletKey(1, USDT)
  const BTC_WALLET := WalletKey(1, BTC)
  const TEN_DOLLARS := Money(10000000, USDT)

  function Most(): Money {
    Money(Pow10(28) - 1, BTC)
  }

  /** Each wallet is funded once, before anything else: 10 USDT, and the most BTC that the column holds. */
  function Funding(): seq<Step> {
    [Fund(1, TEN_DOLLARS), Fund(1, Most())]
  }

  /** 10 USDT are quoted, accepted at once and published. */
  function Selling(): seq<Step> {
    [RequestQuote(2, 1, "10", USDT, BTC, 0), BeginAccept(3, 4, 2, 0), CommitAccept(3, 5, 6), PublishRow(6, true, true)]
  }

  const QUOTE := QuoteRow(1, TEN_DOLLARS, Money(16100, BTC), Rate(161, 7), 0, 20000, Active, None)

  lemma TheQuote()
    ensures CreateQuote(1, "10", USDT, BTC, 0) == Ok(QUOTE)
    ensures Fits(QUOTE.source) && Fits(QUOTE.target)
  {
    hide RoundSig, Pow10, Of;
    TheAmount();
    TheTarget();
    EighthPower();
    PowMonotone(8, 26);
    PowMonotone(8, 28);
  }

  lemma TheAmount()
    ensures Of("10", USDT) == Ok(TEN_DOLLARS)
  {
    assert "10" == "1" + "0" && AllDigits("10");
    NoMark("10");
    DotAfterDigits("10", "");
    assert "10"[..2] == "10" && "10" + [] == "10" && "10"[..1] == "1" && "1"[..0] == [];
    assert ParseNat("10") == 10;
    assert Pow10(6) == 1000000;
  }

  lemma TheTarget()
    ensures Convert(TEN_DOLLARS, Rate(161, 7), BTC) == Money(16100, BTC)
  {
    hide RoundSig, Pow10;
    FifthPower();
    EighthPower();
    PowSum(8, 8);
    PowMonotone(16, 40);
    RoundSigFits(1610000000, PRECISION);
  }

  lemma CreditTo(ws: WalletTable, m: Money)
    requires WalletKey(1, m.asset) !in ws && Fits(m)
    ensures UpdateRow(CreateIfMissing(ws, WalletKey(1, m.asset)), WalletKey(1, m.asset), Credit, m.units)
         == Ok(ws[WalletKey(1, m.asset) := WalletRow(m.units, m.units, 0)])
  {
    hide FitsColumn;
    var k := WalletKey(1, m.asset);
    assert ws[k := NO_FUNDS][k := WalletRow(m.units, m.units, 0)] == ws[k := WalletRow(m.units, m.units, 0)];
  }

  /** What the funded state looks like. */
  predicate IsFunded(s: State) {
    && s.db == EMPTY_DB.(wallets := map[USDT_WALLET := WalletRow(10000000, 10000000, 0),
                                        BTC_WALLET := WalletRow(Most().units, Most().units, 0)])
    && s.accepting == map[] && s.queue == multiset{} && s.workers == map[]
    && s.defaultMode == Success && s.orderModes == map[]
  }

  lemma FundingFunds(maxRetries: nat)
    ensures IsFunded(DoFund(DoFund(Start(maxRetries), 1, TEN_DOLLARS), 1, Most()))
  {
    hide UpdateRow, CreateIfMissing, Pow10, FitsColumn;
    LargestBalance();
    SmallFits();
    CreditTo(map[], TEN_DOLLARS);
    CreditTo(map[USDT_WALLET := WalletRow(10000000, 10000000, 0)], Most());
  }

  lemma SmallFits()
    ensures Fits(TEN_DOLLARS)
  {
    hide Pow10;
    EighthPower();
    PowMonotone(8, 26);
  }

  /** The state with the open accept transaction. */
  function Opened(s: State): State {
    s.(db := s.db.(quotes := map[2 := QUOTE]), accepting := map[3 := Accepting(4, 2, Some(QUOTE), 0)])
  }

  lemma QuotingOpens(s: State)
    requires IsFunded(s)
    ensures DoBeginAccept(DoRequestQuote(s, 2, 1, "10", USDT, BTC, 0), 3, 4, 2, 0) == Opened(s)
  {
    hide CreateQuote, FitsColumn, Most;
    TheQuote();
  }

  lemma TheConversion(maxRetries: nat, steps: seq<Step>, funded: State)
    requires IsFunded(funded) && After(maxRetries, steps) == Opened(funded)
    ensures var t := After(maxRetries, steps + [CommitAccept(3, 5, 6)]);
            var c := AcceptedRow(2, QUOTE, 0, 6);
            && t.db.conversions == map[5 := c] && t.db.exchange == map[]
            && t.db.outbox == map[6 := OutboxRow(PayloadOf(6, 5, c), 0, None)]
            && BTC_WALLET in t.db.wallets && t.db.wallets[BTC_WALLET].balance == Most().units
            && t.queue == multiset{} && t.workers == map[] && t.defaultMode == Success && t.orderModes == map[]
  {
    hide After, PayloadOf, BodyOf, Accept, Most, Stored;
    var s := Opened(funded);
    AcceptIsAllOrNothing(maxRetries, steps, 3, 5, 6);
    NextState(maxRetries, steps, CommitAccept(3, 5, 6));
  }

  lemma PublishingQueues(s: State)
    requires 6 in s.db.outbox && s.queue == multiset{}
    ensures var t := Do(s, PublishRow(6, true, true));
            && t == s.(queue := t.queue, confirmed := t.confirmed) && Message(s.db.outbox[6].payload, 0) in t.queue
  {
  }

  lemma NoRoomForIt(ws: WalletTable)
    requires BTC_WALLET in ws && ws[BTC_WALLET].balance == Most().units
    ensures NoRoom(ws, AcceptedRow(2, QUOTE, 0, 6), Success)
  {
    hide Pow10;
    LargestBalance();
  }

  /** From the empty database: two deposits, one quote, one accept, one publication, one delivery and five
      handler steps later the handler has failed with the refusal, and the conversion is still requested. */
  lemma ARefusedSettlement(maxRetries: nat)
    ensures var message := Message(PayloadOf(6, 5, AcceptedRow(2, QUOTE, 0, 6)), 0);
            var s := After(maxRetries, Funding() + Selling() + ([Deliver(7, message)] + Handles(7, 0, 6)));
            && 7 in s.workers
            && s.workers[7].pc == Failing(SettlementRefused(WalletRefused(ConstraintViolated)))
  {
    hide After, Do, DoFund, DoRequestQuote, DoBeginAccept, PayloadOf, IsFunded, Opened, Most, NoRoom, Handles;
    var c := AcceptedRow(2, QUOTE, 0, 6);
    var funded := DoFund(DoFund(Start(maxRetries), 1, TEN_DOLLARS), 1, Most());
    FundingFunds(maxRetries);
    Opening(maxRetries);
    QuotingOpens(funded);
    var opening := Funding() + Selling()[..2];
    TheConversion(maxRetries, opening, funded);
    var converting := opening + [CommitAccept(3, 5, 6)];
    var t := After(maxRetries, converting);
    NextState(maxRetries, converting, PublishRow(6, true, true));
    assert converting + [PublishRow(6, true, true)] == Funding() + Selling();
    PublishingQueues(t);
    NoRoomForIt(t.db.wallets);
    PublishedMode(maxRetries, t);
    PayloadIsOf(6, 5, c);
    DeliverySettles(maxRetries, Funding() + Selling(), 7, Message(PayloadOf(6, 5, c), 0), 5, 0);
  }

  lemma PayloadIsOf(event: Id, id: Id, c: ConversionRow)
    ensures PayloadOf(event, id, c).eventId == event
  {
  }

  lemma PublishedMode(maxRetries: nat, t: State)
    requires t.db.exchange == map[] && t.defaultMode == Success && t.orderModes == map[]
    ensures ExchangeOutcome(t.db.exchange, 6, ModeFor(t, 6)) == Success
  {
  }

  lemma Opening(maxRetries: nat)
    ensures After(maxRetries, Funding() + Selling()[..2])
         == DoBeginAccept(DoRequestQuote(DoFund(DoFund(Start(maxRetries), 1, TEN_DOLLARS), 1, Most()), 2, 1, "10",
                                         USDT, BTC, 0), 3, 4, 2, 0)
  {
    hide DoFund, DoRequestQuote, DoBeginAccept, Most, After;
    var a, b := Fund(1, TEN_DOLLARS), Fund(1, Most());
    var c, d := RequestQuote(2, 1, "10", USDT, BTC, 0), BeginAccept(3, 4, 2, 0);
    NextState(maxRetries, [], a);
    NextState(maxRetries, [a], b);
    NextState(maxRetries, [a, b], c);
    NextState(maxRetries, [a, b, c], d);
    assert [] + [a] == [a] && [a] + [b] == [a, b] && [a, b] + [c] == [a, b, c];
    assert [a, b, c] + [d] == Funding() + Selling()[..2];
    AtStart(maxRetries);
  }

  lemma AtStart(maxRetries: nat)
    ensures After(maxRetries, []) == Start(maxRetries)
  {
  }
}
