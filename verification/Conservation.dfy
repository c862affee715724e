/** No run creates value: a user's holdings are never worth more than what came in from outside. */
module Conservation {
  import opened Common
  import opened Moneys
  import opened Wallets
  import opened Conversions
  import opened Tables
  import opened Ledger
  import opened Invariants
  import opened Protocol
  import opened StateProof
  import opened Guarantees
  import opened Settlement

  /** What was funded for a user, at the same prices as Value. */
  function FundedValue(s: State, user: Id): int {
    FundedOf(s.funded, WalletKey(user, USDT)) * 100000000000 + FundedOf(s.funded, WalletKey(user, BTC)) * 62111801242236
  }

  /** What the user holds beyond what was funded. */
  function Surplus(s: State, user: Id): int {
    Value(s.db.wallets, user) - FundedValue(s, user)
  }

  /** The terms of every stored conversion are worth no more than what it sells. */
  lemma TermsGainNothing(s: State, id: Id)
    requires StateInv(s) && id in s.db.conversions
    ensures var c := s.db.conversions[id];
            c.source.asset != c.target.asset && Worth(c.target) <= Worth(c.source)
  {
    hide StateInv, DbInv, TablesInv, LedgerOk, WorkersOk, AcceptingOk, EventsKept, Worth, FitsColumn, LifecyclesOk;
    hide RecordsOk, OrdersOk, ResultsOk, MarkersOk, HaveEvents, OnePerQuote, AcceptedAreConverted, OutboxOwned;
    UnpackState(s);
    assert FromQuote(s.db.conversions[id], s.db.quotes);
    assert QuoteOk(s.db.quotes[s.db.conversions[id].quoteId]);
  }

  lemma HoldingKeepsValue(a: Db, b: Db, id: Id, user: Id)
    requires HeldAlone(a, b, id)
    ensures Value(b.wallets, user) == Value(a.wallets, user)
  {
    var usdt, btc := WalletKey(user, USDT), WalletKey(user, BTC);
    assert Row(b.wallets, usdt).balance == Row(a.wallets, usdt).balance;
    assert Row(b.wallets, btc).balance == Row(a.wallets, btc).balance;
  }

  lemma DepositKeepsSurplus(s: State, step: Step, t: State, user: Id)
    requires step.Fund? && MovementOk(s, step, t)
    ensures Surplus(t, user) == Surplus(s, user)
  {
    hide Row, NothingSettlesIn, FundedOf;
    var usdt, btc := WalletKey(user, USDT), WalletKey(user, BTC);
    assert Row(t.db.wallets, usdt).balance - Row(s.db.wallets, usdt).balance
        == FundedOf(t.funded, usdt) - FundedOf(s.funded, usdt);
    assert Row(t.db.wallets, btc).balance - Row(s.db.wallets, btc).balance
        == FundedOf(t.funded, btc) - FundedOf(s.funded, btc);
  }

  lemma SettlingGainsNothing(s: State, t: State, id: Id, o: Outcome, user: Id)
    requires StateInv(s) && SettlesAlone(s.db, t.db, id, o)
    ensures Value(t.db.wallets, user) <= Value(s.db.wallets, user)
  {
    hide StateInv, Value, MovesOnly, Worth;
    TermsGainNothing(s, id);
    SettlementGainsNothing(s.db.wallets, t.db.wallets, s.db.conversions[id], o, user);
  }

  lemma MovementGainsNothing(s: State, step: Step, t: State, user: Id)
    requires StateInv(s) && MovementOk(s, step, t)
    requires !step.Fund? ==> t.funded == s.funded
    ensures Surplus(t, user) <= Surplus(s, user)
  {
    hide StateInv, Value, SettlesAlone, HeldAlone, NothingSettlesIn;
    match step
    case Fund(_, _) => DepositKeepsSurplus(s, step, t, user);
    case CommitAccept(_, id, _) =>
      if t.db.wallets != s.db.wallets {
        HoldingKeepsValue(s.db, t.db, id, user);
      }
    case Handle(w, _) =>
      if t.db.wallets != s.db.wallets {
        SettlingGainsNothing(s, t, s.workers[w].message.payload.conversionId, s.workers[w].pc.outcome, user);
      }
    case _ =>
  }

  /** Over any continuation of any run, the surplus of a user never grows. */
  lemma {:induction false} SurplusNeverGrows(maxRetries: nat, steps: seq<Step>, more: seq<Step>, user: Id)
    ensures Surplus(After(maxRetries, steps + more), user) <= Surplus(After(maxRetries, steps), user)
  {
    hide After, StateInv, MovementOk, Do, Surplus;
    if more == [] {
      assert steps + more == steps;
    } else {
      var init, step := more[..|more| - 1], more[|more| - 1];
      SurplusNeverGrows(maxRetries, steps, init, user);
      var s := After(maxRetries, steps + init);
      ReachableState(maxRetries, steps + init);
      EveryMovementIsExplained(maxRetries, steps + init, step);
      assert steps + init + [step] == steps + more;
      NextState(maxRetries, steps + init, step);
      MovementGainsNothing(s, step, After(maxRetries, steps + more), user);
    }
  }

  lemma {:induction false} FundedStaysWithoutDeposits(maxRetries: nat, steps: seq<Step>, more: seq<Step>)
    requires forall i :: 0 <= i < |more| ==> !more[i].Fund?
    ensures After(maxRetries, steps + more).funded == After(maxRetries, steps).funded
  {
    hide After, Do;
    if more == [] {
      assert steps + more == steps;
    } else {
      var init, step := more[..|more| - 1], more[|more| - 1];
      FundedStaysWithoutDeposits(maxRetries, steps, init);
      assert steps + init + [step] == steps + more;
      NextState(maxRetries, steps + init, step);
    }
  }

  /** Without deposits, a user's USDT balance plus 62111.801242236 times the BTC balance never increases,
      over any sequence of quotes, accepts, settlements and failures in either direction. */
  lemma NoRunCreatesValue(maxRetries: nat, steps: seq<Step>, more: seq<Step>, user: Id)
    requires forall i :: 0 <= i < |more| ==> !more[i].Fund?
    ensures Value(After(maxRetries, steps + more).db.wallets, user) <= Value(After(maxRetries, steps).db.wallets, user)
  {
    hide After, Value;
    SurplusNeverGrows(maxRetries, steps, more, user);
    FundedStaysWithoutDeposits(maxRetries, steps, more);
  }

  /** And in every run nobody holds more than was funded for them. */
  lemma HoldingsAreFunded(maxRetries: nat, steps: seq<Step>, user: Id)
    ensures Value(After(maxRetries, steps).db.wallets, user) <= FundedValue(After(maxRetries, steps), user)
  {
    hide Do;
    SurplusNeverGrows(maxRetries, [], steps, user);
    assert [] + steps == steps;
    assert Surplus(After(maxRetries, []), user) == 0;
  }
}
