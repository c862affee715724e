/**
  Wallets twice over: the conditional UPDATEs of
  src/modules/wallet/infrastructure/prisma-wallet.repository.ts on rows, and the aggregate of
  src/modules/wallet/domain/wallet-account.ts, with the proof that they agree.
*/
module Wallets {
  import opened Common
  import opened Decimals
  import opened Moneys

  datatype WalletKey = WalletKey(user: Id, asset: Asset)

  /** The three amounts of a row, in minor units of its asset. */
  datatype WalletRow = WalletRow(balance: int, available: int, reserved: int)

  type WalletTable = map<WalletKey, WalletRow>

  datatype WalletError = InsufficientAvailable | InsufficientReserved | WalletNotFound | ConstraintViolated

  datatype WalletOp = Reserve | Release | Commit | Credit

  /** What the table itself enforces: the CHECK constraints and the NUMERIC(38,18) precision. */
  predicate Stored(r: WalletRow, asset: Asset) {
    && r.balance >= 0 && r.available >= 0 && r.reserved >= 0
    && r.available + r.reserved == r.balance
    && FitsColumn(r.balance, asset)
  }

  const NO_FUNDS := WalletRow(0, 0, 0)

  /** The WHERE guard of each statement. */
  predicate Guard(r: WalletRow, op: WalletOp, amount: nat) {
    match op
    case Reserve => r.available >= amount
    case Release => r.reserved >= amount
    case Commit => r.reserved >= amount
    case Credit => true
  }

  /** The SET clause of each statement. */
  function Moved(r: WalletRow, op: WalletOp, amount: nat): WalletRow {
    match op
    case Reserve => r.(available := r.available - amount, reserved := r.reserved + amount)
    case Release => r.(available := r.available + amount, reserved := r.reserved - amount)
    case Commit => r.(reserved := r.reserved - amount, balance := r.balance - amount)
    case Credit => r.(balance := r.balance + amount, available := r.available + amount)
  }

  function MissedGuard(op: WalletOp): WalletError {
    match op
    case Reserve => InsufficientAvailable
    case Release => InsufficientReserved
    case Commit => InsufficientReserved
    case Credit => WalletNotFound
  }

  /** One conditional UPDATE: no row matched, or the table refuses the new row, or the row moves. */
  function UpdateRow(ws: WalletTable, key: WalletKey, op: WalletOp, amount: nat): Result<WalletTable, WalletError> {
    if key !in ws || !Guard(ws[key], op, amount) then Err(MissedGuard(op))
    else
      var r := Moved(ws[key], op, amount);
      if Stored(r, key.asset) then Ok(ws[key := r]) else Err(ConstraintViolated)
  }

  function CreateIfMissing(ws: WalletTable, key: WalletKey): WalletTable {
    if key in ws then ws else ws[key := NO_FUNDS]
  }

  /** What came into a wallet from outside. */
  function FundedOf(funded: map<WalletKey, nat>, k: WalletKey): nat {
    if k in funded then funded[k] else 0
  }

  /** The repository, updating its rows in place. */
  class WalletRepository {
    var rows: WalletTable

    constructor ()
      ensures rows == map[]
    {
      rows := map[];
    }

    /** Writes a row unless a constraint of the table refuses it. */
    method Put(key: WalletKey, r: WalletRow) returns (error: Option<WalletError>)
      modifies this
      ensures if Stored(r, key.asset) then rows == old(rows)[key := r] && error == None
              else rows == old(rows) && error == Some(ConstraintViolated)
    {
      if Stored(r, key.asset) {
        rows := rows[key := r];
        error := None;
      } else {
        error := Some(ConstraintViolated);
      }
    }

    method ReserveFunds(user: Id, m: Money) returns (error: Option<WalletError>)
      modifies this
      ensures match UpdateRow(old(rows), WalletKey(user, m.asset), Reserve, m.units)
              case Ok(ws) => rows == ws && error == None
              case Err(e) => rows == old(rows) && error == Some(e)
      ensures var k := WalletKey(user, m.asset);
              if k !in old(rows) || old(rows)[k].available < m.units then
                error == Some(InsufficientAvailable) && rows == old(rows)
              else
                var r := old(rows)[k];
                var moved := WalletRow(r.balance, r.available - m.units, r.reserved + m.units);
                if Stored(moved, m.asset) then error == None && rows == old(rows)[k := moved]
                else error == Some(ConstraintViolated) && rows == old(rows)
    {
      var key := WalletKey(user, m.asset);
      if key !in rows || rows[key].available < m.units {
        return Some(InsufficientAvailable);
      }
      var r := rows[key];
      error := Put(key, WalletRow(r.balance, r.available - m.units, r.reserved + m.units));
    }

    method ReleaseFunds(user: Id, m: Money) returns (error: Option<WalletError>)
      modifies this
      ensures match UpdateRow(old(rows), WalletKey(user, m.asset), Release, m.units)
              case Ok(ws) => rows == ws && error == None
              case Err(e) => rows == old(rows) && error == Some(e)
      ensures var k := WalletKey(user, m.asset);
              if k !in old(rows) || old(rows)[k].reserved < m.units then
                error == Some(InsufficientReserved) && rows == old(rows)
              else
                var r := old(rows)[k];
                var moved := WalletRow(r.balance, r.available + m.units, r.reserved - m.units);
                if Stored(moved, m.asset) then error == None && rows == old(rows)[k := moved]
                else error == Some(ConstraintViolated) && rows == old(rows)
    {
      var key := WalletKey(user, m.asset);
      if key !in rows || rows[key].reserved < m.units {
        return Some(InsufficientReserved);
      }
      var r := rows[key];
      error := Put(key, WalletRow(r.balance, r.available + m.units, r.reserved - m.units));
    }

    method CommitReservation(user: Id, m: Money) returns (error: Option<WalletError>)
      modifies this
      ensures match UpdateRow(old(rows), WalletKey(user, m.asset), Commit, m.units)
              case Ok(ws) => rows == ws && error == None
              case Err(e) => rows == old(rows) && error == Some(e)
      ensures var k := WalletKey(user, m.asset);
              if k !in old(rows) || old(rows)[k].reserved < m.units then
                error == Some(InsufficientReserved) && rows == old(rows)
              else
                var r := old(rows)[k];
                var moved := WalletRow(r.balance - m.units, r.available, r.reserved - m.units);
                if Stored(moved, m.asset) then error == None && rows == old(rows)[k := moved]
                else error == Some(ConstraintViolated) && rows == old(rows)
    {
      var key := WalletKey(user, m.asset);
      if key !in rows || rows[key].reserved < m.units {
        return Some(InsufficientReserved);
      }
      var r := rows[key];
      error := Put(key, WalletRow(r.balance - m.units, r.available, r.reserved - m.units));
    }

    method CreditFunds(user: Id, m: Money) returns (error: Option<WalletError>)
      modifies this
      ensures match UpdateRow(old(rows), WalletKey(user, m.asset), Credit, m.units)
              case Ok(ws) => rows == ws && error == None
              case Err(e) => rows == old(rows) && error == Some(e)
      ensures var k := WalletKey(user, m.asset);
              if k !in old(rows) then error == Some(WalletNotFound) && rows == old(rows)
              else
                var r := old(rows)[k];
                var moved := WalletRow(r.balance + m.units, r.available + m.units, r.reserved);
                if Stored(moved, m.asset) then error == None && rows == old(rows)[k := moved]
                else error == Some(ConstraintViolated) && rows == old(rows)
    {
      var key := WalletKey(user, m.asset);
      if key !in rows {
        return Some(WalletNotFound);
      }
      var r := rows[key];
      error := Put(key, WalletRow(r.balance + m.units, r.available + m.units, r.reserved));
    }

    method CreateRowIfMissing(user: Id, asset: Asset)
      modifies this
      ensures rows == CreateIfMissing(old(rows), WalletKey(user, asset))
      ensures var k := WalletKey(user, asset);
              rows == if k in old(rows) then old(rows) else old(rows)[k := WalletRow(0, 0, 0)]
    {
      if WalletKey(user, asset) !in rows {
        rows := rows[WalletKey(user, asset) := WalletRow(0, 0, 0)];
      }
    }
  }

  // ----- the aggregate

  datatype AccountError = WrongAsset | Insufficient | NegativeResult | InvariantViolated

  datatype Account = Account(asset: Asset, balance: Money, available: Money, reserved: Money)

  /** assertInvariant: 40-digit addition of available and reserved gives the balance. */
  predicate Balanced(a: Account) {
    && a.balance.asset == a.available.asset == a.reserved.asset == a.asset
    && Add(a.available, a.reserved) == Ok(a.balance)
  }

  function Checked(a: Account): (Account, Option<AccountError>) {
    (a, if Balanced(a) then None else Some(InvariantViolated))
  }

  /** What a mutator leaves in the fields, and what it throws. A throw from assertInvariant comes
      after the fields were assigned. */
  function AccountStep(a: Account, op: WalletOp, m: Money): (Account, Option<AccountError>) {
    if m.asset != a.asset then (a, Some(WrongAsset))
    else match op
      case Reserve =>
        if a.available.units < m.units then (a, Some(Insufficient))
        else Checked(a.(available := Minus(a.available, m), reserved := Plus(a.reserved, m)))
      case Release =>
        if a.reserved.units < m.units then (a, Some(Insufficient))
        else Checked(a.(reserved := Minus(a.reserved, m), available := Plus(a.available, m)))
      case Commit =>
        if a.reserved.units < m.units then (a, Some(Insufficient))
        else if a.balance.units < m.units then (a.(reserved := Minus(a.reserved, m)), Some(NegativeResult))
        else Checked(a.(reserved := Minus(a.reserved, m), balance := Minus(a.balance, m)))
      case Credit =>
        Checked(a.(balance := Plus(a.balance, m), available := Plus(a.available, m)))
  }

  class WalletAccount {
    const userId: Id
    const asset: Asset
    var balanceAmount: Money
    var availableAmount: Money
    var reservedAmount: Money

    function State(): Account
      reads this
    {
      Account(asset, balanceAmount, availableAmount, reservedAmount)
    }

    constructor (userId: Id, asset: Asset, balance: Money, available: Money, reserved: Money)
      ensures this.userId == userId && State() == Account(asset, balance, available, reserved)
    {
      this.userId, this.asset := userId, asset;
      balanceAmount, availableAmount, reservedAmount := balance, available, reserved;
    }

    /** WalletAccount.open: everything is available. An initial balance of another asset is refused, and so is
        one that 40-digit addition would not keep. */
    static method Open(userId: Id, asset: Asset, initial: Money) returns (result: Result<WalletAccount, AccountError>)
      ensures result.Ok? <==> initial.asset == asset && Add(initial, Money(0, asset)) == Ok(initial)
      ensures match result
              case Ok(account) =>
                && fresh(account) && account.userId == userId
                && account.State() == Account(asset, initial, initial, Money(0, asset)) && Balanced(account.State())
              case Err(e) => e == InvariantViolated
    {
      if initial.asset != asset {
        return Err(InvariantViolated);
      }
      var account := new WalletAccount(userId, asset, initial, initial, Money(0, asset));
      var error := account.AssertInvariant();
      result := if error.None? then Ok(account) else Err(InvariantViolated);
    }

    method AssertInvariant() returns (error: Option<AccountError>)
      ensures error == Checked(State()).1
      ensures error == if && balanceAmount.asset == asset && availableAmount.asset == asset
                          && reservedAmount.asset == asset && Add(availableAmount, reservedAmount) == Ok(balanceAmount)
                       then None else Some(InvariantViolated)
    {
      if balanceAmount.asset != asset || availableAmount.asset != asset || reservedAmount.asset != asset {
        return Some(InvariantViolated);
      }
      var recomposed := Add(availableAmount, reservedAmount);
      error := if recomposed == Ok(balanceAmount) then None else Some(InvariantViolated);
    }

    method Reserve(m: Money) returns (error: Option<AccountError>)
      modifies this
      ensures (State(), error) == AccountStep(old(State()), WalletOp.Reserve, m)
      ensures m.asset != asset ==> error == Some(WrongAsset) && State() == old(State())
      ensures m.asset == asset && old(availableAmount).units < m.units ==>
                error == Some(Insufficient) && State() == old(State())
      ensures m.asset == asset && old(availableAmount).units >= m.units ==>
                && balanceAmount == old(balanceAmount) && availableAmount == Minus(old(availableAmount), m)
                && reservedAmount == Plus(old(reservedAmount), m)
                && error == if && balanceAmount.asset == asset && availableAmount.asset == asset
                               && reservedAmount.asset == asset
                               && Add(availableAmount, reservedAmount) == Ok(balanceAmount)
                            then None else Some(InvariantViolated)
    {
      if m.asset != asset {
        return Some(WrongAsset);
      }
      if availableAmount.units < m.units {
        return Some(Insufficient);
      }
      availableAmount := Minus(availableAmount, m);
      reservedAmount := Plus(reservedAmount, m);
      error := AssertInvariant();
    }

    method Release(m: Money) returns (error: Option<AccountError>)
      modifies this
      ensures (State(), error) == AccountStep(old(State()), WalletOp.Release, m)
      ensures m.asset != asset ==> error == Some(WrongAsset) && State() == old(State())
      ensures m.asset == asset && old(reservedAmount).units < m.units ==>
                error == Some(Insufficient) && State() == old(State())
      ensures m.asset == asset && old(reservedAmount).units >= m.units ==>
                && balanceAmount == old(balanceAmount) && availableAmount == Plus(old(availableAmount), m)
                && reservedAmount == Minus(old(reservedAmount), m)
                && error == if && balanceAmount.asset == asset && availableAmount.asset == asset
                               && reservedAmount.asset == asset
                               && Add(availableAmount, reservedAmount) == Ok(balanceAmount)
                            then None else Some(InvariantViolated)
    {
      if m.asset != asset {
        return Some(WrongAsset);
      }
      if reservedAmount.units < m.units {
        return Some(Insufficient);
      }
      reservedAmount := Minus(reservedAmount, m);
      availableAmount := Plus(availableAmount, m);
      error := AssertInvariant();
    }

    method CommitReservation(m: Money) returns (error: Option<AccountError>)
      modifies this
      ensures (State(), error) == AccountStep(old(State()), WalletOp.Commit, m)
      ensures m.asset != asset ==> error == Some(WrongAsset) && State() == old(State())
      ensures m.asset == asset && old(reservedAmount).units < m.units ==>
                error == Some(Insufficient) && State() == old(State())
      ensures m.asset == asset && old(reservedAmount).units >= m.units && old(balanceAmount).units < m.units ==>
                && error == Some(NegativeResult) && reservedAmount == Minus(old(reservedAmount), m)
                && balanceAmount == old(balanceAmount) && availableAmount == old(availableAmount)
      ensures m.asset == asset && old(reservedAmount).units >= m.units && old(balanceAmount).units >= m.units ==>
                && balanceAmount == Minus(old(balanceAmount), m) && availableAmount == old(availableAmount)
                && reservedAmount == Minus(old(reservedAmount), m)
                && error == if && balanceAmount.asset == asset && availableAmount.asset == asset
                               && reservedAmount.asset == asset
                               && Add(availableAmount, reservedAmount) == Ok(balanceAmount)
                            then None else Some(InvariantViolated)
    {
      if m.asset != asset {
        return Some(WrongAsset);
      }
      if reservedAmount.units < m.units {
        return Some(Insufficient);
      }
      reservedAmount := Minus(reservedAmount, m);
      if balanceAmount.units < m.units {
        return Some(NegativeResult);
      }
      balanceAmount := Minus(balanceAmount, m);
      error := AssertInvariant();
    }

    method Credit(m: Money) returns (error: Option<AccountError>)
      modifies this
      ensures (State(), error) == AccountStep(old(State()), WalletOp.Credit, m)
      ensures m.asset != asset ==> error == Some(WrongAsset) && State() == old(State())
      ensures m.asset == asset ==>
                && balanceAmount == Plus(old(balanceAmount), m) && availableAmount == Plus(old(availableAmount), m)
                && reservedAmount == old(reservedAmount)
                && error == if && balanceAmount.asset == asset && availableAmount.asset == asset
                               && reservedAmount.asset == asset
                               && Add(availableAmount, reservedAmount) == Ok(balanceAmount)
                            then None else Some(InvariantViolated)
    {
      if m.asset != asset {
        return Some(WrongAsset);
      }
      balanceAmount := Plus(balanceAmount, m);
      availableAmount := Plus(availableAmount, m);
      error := AssertInvariant();
    }
  }

  // ----- the statements refine the aggregate

  function Loaded(r: WalletRow, asset: Asset): Account
    requires Stored(r, asset)
  {
    Account(asset, Money(r.balance, asset), Money(r.available, asset), Money(r.reserved, asset))
  }

  function SqlStep(r: WalletRow, asset: Asset, op: WalletOp, amount: nat): Option<WalletRow> {
    if Guard(r, op, amount) && Stored(Moved(r, op, amount), asset) then Some(Moved(r, op, amount)) else None
  }

  /** 40-digit arithmetic keeps the amounts of a stored row as they are. */
  lemma StoredIsExact(r: WalletRow, asset: Asset)
    requires Stored(r, asset)
    ensures RoundSig(r.balance, PRECISION) == r.balance
    ensures RoundSig(r.available, PRECISION) == r.available
    ensures RoundSig(r.reserved, PRECISION) == r.reserved
  {
    hide RoundSig;
    PowMonotone(20 + asset.Scale(), PRECISION);
    RoundSigFits(r.balance, PRECISION);
    RoundSigFits(r.available, PRECISION);
    RoundSigFits(r.reserved, PRECISION);
  }

  lemma MovedIsStored(r: WalletRow, asset: Asset, op: WalletOp, amount: nat)
    requires Stored(r, asset) && Guard(r, op, amount)
    ensures Stored(Moved(r, op, amount), asset)
       <==> (op == Credit ==> FitsColumn(r.balance + amount, asset))
  {
    hide Pow10;
  }

  lemma LargeStaysLarge(n: nat, asset: Asset)
    requires !FitsColumn(n, asset)
    ensures !FitsColumn(RoundSig(n, PRECISION), asset)
  {
    hide RoundSig;
    BoundSurvivesRounding(n, 20 + asset.Scale());
  }

  /** The agreement of one call: the UPDATE succeeds exactly when the aggregate's method does not
      throw and the new balance fits its column, and then both hold the same three amounts. */
  predicate Agrees(r: WalletRow, asset: Asset, op: WalletOp, amount: nat)
    requires Stored(r, asset)
  {
    var (a, thrown) := AccountStep(Loaded(r, asset), op, Money(amount, asset));
    match SqlStep(r, asset, op, amount)
    case Some(moved) => thrown.None? && Fits(a.balance) && Stored(moved, asset) && a == Loaded(moved, asset)
    case None => thrown.Some? || !Fits(a.balance)
  }

  lemma ReserveAgrees(r: WalletRow, asset: Asset, amount: nat)
    requires Stored(r, asset)
    ensures Agrees(r, asset, Reserve, amount)
    ensures SqlStep(r, asset, Reserve, amount).Some? <==> amount <= r.available
  {
    hide RoundSig, FitsColumn;
    StoredIsExact(r, asset);
    if amount <= r.available {
      MovedIsStored(r, asset, Reserve, amount);
      StoredIsExact(Moved(r, Reserve, amount), asset);
    }
  }

  lemma ReleaseAgrees(r: WalletRow, asset: Asset, amount: nat)
    requires Stored(r, asset)
    ensures Agrees(r, asset, Release, amount)
    ensures SqlStep(r, asset, Release, amount).Some? <==> amount <= r.reserved
  {
    hide RoundSig, FitsColumn;
    StoredIsExact(r, asset);
    if amount <= r.reserved {
      MovedIsStored(r, asset, Release, amount);
      StoredIsExact(Moved(r, Release, amount), asset);
    }
  }

  lemma CommitAgrees(r: WalletRow, asset: Asset, amount: nat)
    requires Stored(r, asset)
    ensures Agrees(r, asset, Commit, amount)
    ensures SqlStep(r, asset, Commit, amount).Some? <==> amount <= r.reserved
  {
    hide RoundSig, FitsColumn;
    StoredIsExact(r, asset);
    if amount <= r.reserved {
      MovedIsStored(r, asset, Commit, amount);
      StoredIsExact(Moved(r, Commit, amount), asset);
    }
  }

  lemma CreditAgrees(r: WalletRow, asset: Asset, amount: nat)
    requires Stored(r, asset)
    ensures Agrees(r, asset, Credit, amount)
    ensures SqlStep(r, asset, Credit, amount).Some? <==> FitsColumn(r.balance + amount, asset)
  {
    hide RoundSig, FitsColumn;
    MovedIsStored(r, asset, Credit, amount);
    if FitsColumn(r.balance + amount, asset) {
      StoredIsExact(Moved(r, Credit, amount), asset);
      StoredIsExact(r, asset);
    } else {
      LargeStaysLarge(r.balance + amount, asset);
    }
  }

  /** Only a credit that outgrows the column separates the statements from the aggregate. */
  lemma SqlRefinesAggregate(r: WalletRow, asset: Asset, op: WalletOp, amount: nat)
    requires Stored(r, asset)
    ensures Agrees(r, asset, op, amount)
    ensures SqlStep(r, asset, op, amount).Some?
       <==> Guard(r, op, amount) && (op == Credit ==> FitsColumn(r.balance + amount, asset))
  {
    match op
    case Reserve => ReserveAgrees(r, asset, amount);
    case Release => ReleaseAgrees(r, asset, amount);
    case Commit => CommitAgrees(r, asset, amount);
    case Credit => CreditAgrees(r, asset, amount);
  }

  // ----- any interleaving of operations on one wallet

  datatype Call = Call(op: WalletOp, amount: nat)

  /** The row after one statement; one that misses its guard changes nothing. */
  function AfterCall(r: WalletRow, asset: Asset, c: Call): WalletRow {
    match SqlStep(r, asset, c.op, c.amount)
    case Some(moved) => moved
    case None => r
  }

  function RunSql(r: WalletRow, asset: Asset, calls: seq<Call>): WalletRow
    decreases |calls|
  {
    if calls == [] then r else RunSql(AfterCall(r, asset, calls[0]), asset, calls[1..])
  }

  /** The same through the aggregate: each call works on a freshly loaded account, and one that throws
      (or would not fit its column) is not written back. */
  function RunAggregate(a: Account, calls: seq<Call>): Account
    decreases |calls|
  {
    if calls == [] then a
    else
      var (a', thrown) := AccountStep(a, calls[0].op, Money(calls[0].amount, a.asset));
      RunAggregate(if thrown.None? && Fits(a'.balance) then a' else a, calls[1..])
  }

  /** What a call moves if it wins, for one kind of call. */
  function Gain(r: WalletRow, asset: Asset, c: Call, op: WalletOp): nat {
    if c.op == op && SqlStep(r, asset, op, c.amount).Some? then c.amount else 0
  }

  /** Total amount of the winning calls of one kind. */
  function Won(r: WalletRow, asset: Asset, calls: seq<Call>, op: WalletOp): nat
    decreases |calls|
  {
    if calls == [] then 0
    else Gain(r, asset, calls[0], op) + Won(AfterCall(r, asset, calls[0]), asset, calls[1..], op)
  }

  lemma {:induction false} RunsAgree(r: WalletRow, asset: Asset, calls: seq<Call>)
    requires Stored(r, asset)
    ensures Stored(RunSql(r, asset, calls), asset)
    ensures RunAggregate(Loaded(r, asset), calls) == Loaded(RunSql(r, asset, calls), asset)
    decreases |calls|
  {
    hide RoundSig, Pow10;
    if calls == [] {
    } else {
      SqlRefinesAggregate(r, asset, calls[0].op, calls[0].amount);
      RunsAgree(AfterCall(r, asset, calls[0]), asset, calls[1..]);
    }
  }

  lemma OneCallAccounts(r: WalletRow, asset: Asset, c: Call)
    requires Stored(r, asset)
    ensures Stored(AfterCall(r, asset, c), asset)
    ensures var e := AfterCall(r, asset, c);
            && e.available == r.available + Gain(r, asset, c, Credit) + Gain(r, asset, c, Release)
                              - Gain(r, asset, c, Reserve)
            && e.reserved == r.reserved + Gain(r, asset, c, Reserve)
                             - Gain(r, asset, c, Release) - Gain(r, asset, c, Commit)
            && e.balance == r.balance + Gain(r, asset, c, Credit) - Gain(r, asset, c, Commit)
  {
    hide FitsColumn;
  }

  /** Every amount is accounted for by the calls that won, so winning reservations never total more
      than the available funds there were, plus what was credited and released. */
  lemma {:induction false} WonCallsAccountForTheRow(r: WalletRow, asset: Asset, calls: seq<Call>)
    requires Stored(r, asset)
    ensures var e := RunSql(r, asset, calls);
            var reserved, released := Won(r, asset, calls, Reserve), Won(r, asset, calls, Release);
            var committed, credited := Won(r, asset, calls, Commit), Won(r, asset, calls, Credit);
            && e.available == r.available + credited + released - reserved
            && e.reserved == r.reserved + reserved - released - committed
            && e.balance == r.balance + credited - committed
            && reserved <= r.available + credited + released
    decreases |calls|
  {
    hide Gain, AfterCall, FitsColumn;
    RunsAgree(r, asset, calls);
    if calls == [] {
    } else {
      OneCallAccounts(r, asset, calls[0]);
      WonCallsAccountForTheRow(AfterCall(r, asset, calls[0]), asset, calls[1..]);
    }
  }
}
