/**
  The ledger: how the wallets must stand, given the conversions and what was funded from outside.
*/
module Ledger {
  import opened Common
  import opened Decimals
  import opened Moneys
  import opened Wallets
  import opened Conversions
  import opened Tables
  import opened Transactions

  /** The two columns that conversions determine: what they hold reserved, and what the completed
      ones took out or brought in. */
  datatype Column = Held | Net

  function Contribution(col: Column, k: WalletKey, c: ConversionRow): int {
    if c.userId != k.user then 0
    else match col
      case Held => if Holds(c.status) && c.source.asset == k.asset then c.source.units else 0
      case Net =>
        if c.status != Completed then 0
        else (if c.target.asset == k.asset then c.target.units else 0)
             - (if c.source.asset == k.asset then c.source.units else 0)
  }

  /** The sum over all conversions. */
  ghost function Total(col: Column, k: WalletKey, rows: ConversionTable): int
    decreases |rows|
  {
    if rows == map[] then 0
    else
      var id :| id in rows;
      Contribution(col, k, rows[id]) + Total(col, k, rows - {id})
  }

  lemma {:induction false} TotalSplit(col: Column, k: WalletKey, rows: ConversionTable, id: Id)
    requires id in rows
    ensures Total(col, k, rows) == Contribution(col, k, rows[id]) + Total(col, k, rows - {id})
    decreases |rows|
  {
    hide Contribution;
    var x :| x in rows && Total(col, k, rows) == Contribution(col, k, rows[x]) + Total(col, k, rows - {x});
    if x == id {
    } else {
      TotalSplit(col, k, rows - {x}, id);
      TotalSplit(col, k, rows - {id}, x);
      assert rows - {x} - {id} == rows - {id} - {x};
    }
  }

  lemma TotalUpdate(col: Column, k: WalletKey, rows: ConversionTable, id: Id, c: ConversionRow)
    ensures Total(col, k, rows[id := c]) == Total(col, k, rows) + Contribution(col, k, c)
                                            - (if id in rows then Contribution(col, k, rows[id]) else 0)
  {
    hide Contribution;
    TotalSplit(col, k, rows[id := c], id);
    if id in rows {
      TotalSplit(col, k, rows, id);
      assert rows[id := c] - {id} == rows - {id};
    } else {
      assert rows[id := c] - {id} == rows;
    }
  }

  lemma {:induction false} HeldNonNegative(k: WalletKey, rows: ConversionTable)
    ensures Total(Held, k, rows) >= 0
    decreases |rows|
  {
    if rows == map[] {
    } else {
      var x :| x in rows;
      TotalSplit(Held, k, rows, x);
      HeldNonNegative(k, rows - {x});
    }
  }

  lemma HeldAtLeast(k: WalletKey, rows: ConversionTable, id: Id)
    requires id in rows
    ensures Total(Held, k, rows) >= Contribution(Held, k, rows[id])
  {
    TotalSplit(Held, k, rows, id);
    HeldNonNegative(k, rows - {id});
  }

  /** The row of a wallet; one that does not exist holds nothing. */
  function Row(ws: WalletTable, k: WalletKey): WalletRow {
    if k in ws then ws[k] else NO_FUNDS
  }

  /** One wallet stands as it must. */
  ghost predicate InBalance(ws: WalletTable, rows: ConversionTable, funded: map<WalletKey, nat>, k: WalletKey) {
    && Stored(Row(ws, k), k.asset)
    && Row(ws, k).reserved == Total(Held, k, rows)
    && Row(ws, k).balance == FundedOf(funded, k) + Total(Net, k, rows)
  }

  ghost predicate LedgerOk(ws: WalletTable, rows: ConversionTable, funded: map<WalletKey, nat>) {
    forall k :: InBalance(ws, rows, funded, k)
  }

  /** Reserving for a new conversion keeps every wallet in balance. */
  lemma ReserveKeepsLedger(ws: WalletTable, rows: ConversionTable, funded: map<WalletKey, nat>, id: Id,
                           c: ConversionRow)
    requires LedgerOk(ws, rows, funded)
    requires id !in rows && c.status == FundsReserved
    requires UpdateRow(ws, WalletKey(c.userId, c.source.asset), Reserve, c.source.units).Ok?
    ensures LedgerOk(UpdateRow(ws, WalletKey(c.userId, c.source.asset), Reserve, c.source.units).value,
                     rows[id := c], funded)
  {
    hide FitsColumn;
    var ws' := UpdateRow(ws, WalletKey(c.userId, c.source.asset), Reserve, c.source.units).value;
    var rows' := rows[id := c];
    forall k ensures InBalance(ws', rows', funded, k) {
      assert InBalance(ws, rows, funded, k);
      TotalUpdate(Held, k, rows, id, c);
      TotalUpdate(Net, k, rows, id, c);
    }
  }

  /** A change of status that moves no funds: the same amounts stay held. */
  lemma StatusKeepsLedger(ws: WalletTable, rows: ConversionTable, funded: map<WalletKey, nat>, id: Id, c: ConversionRow)
    requires LedgerOk(ws, rows, funded)
    requires id in rows && SameIdentity(rows[id], c)
    requires Holds(rows[id].status) && Holds(c.status)
    ensures LedgerOk(ws, rows[id := c], funded)
  {
    hide Stored, Row;
    var rows' := rows[id := c];
    forall k ensures InBalance(ws, rows', funded, k) {
      assert InBalance(ws, rows, funded, k);
      TotalUpdate(Held, k, rows, id, c);
      TotalUpdate(Net, k, rows, id, c);
    }
  }

  /** Funding from outside. */
  lemma FundKeepsLedger(ws: WalletTable, rows: ConversionTable, funded: map<WalletKey, nat>, k: WalletKey, units: nat)
    requires LedgerOk(ws, rows, funded)
    requires UpdateRow(CreateIfMissing(ws, k), k, Credit, units).Ok?
    ensures LedgerOk(UpdateRow(CreateIfMissing(ws, k), k, Credit, units).value, rows,
                     funded[k := FundedOf(funded, k) + units])
  {
    hide FitsColumn, Total;
    var ws' := UpdateRow(CreateIfMissing(ws, k), k, Credit, units).value;
    var funded' := funded[k := FundedOf(funded, k) + units];
    forall x ensures InBalance(ws', rows, funded', x) {
      assert InBalance(ws, rows, funded, x);
    }
  }

  /** The source wallet of a conversion that holds funds exists and has them reserved. */
  lemma HoldIsReserved(ws: WalletTable, rows: ConversionTable, funded: map<WalletKey, nat>, id: Id)
    requires LedgerOk(ws, rows, funded)
    requires id in rows && Holds(rows[id].status) && rows[id].source.units > 0
    ensures var c := rows[id]; var k := WalletKey(c.userId, c.source.asset);
            k in ws && Stored(ws[k], k.asset) && ws[k].reserved >= c.source.units
  {
    hide FitsColumn;
    var k := WalletKey(rows[id].userId, rows[id].source.asset);
    assert InBalance(ws, rows, funded, k);
    HeldAtLeast(k, rows, id);
  }

  /** Whether the column of the target wallet can take the credit. */
  predicate RoomForTarget(ws: WalletTable, c: ConversionRow) {
    FitsColumn(Row(ws, WalletKey(c.userId, c.target.asset)).balance + c.target.units, c.target.asset)
  }

  /** What a settlement does to one wallet. */
  function SettledRow(r: WalletRow, k: WalletKey, c: ConversionRow, o: Outcome): WalletRow {
    if k.user != c.userId || o == Unknown then r
    else if k.asset == c.source.asset then Moved(r, if o == Success then Commit else Release, c.source.units)
    else if o == Success && k.asset == c.target.asset then Moved(r, Credit, c.target.units)
    else r
  }

  /** The funds of a conversion are reserved in its source wallet, and both wallets are sound. */
  predicate Backed(ws: WalletTable, c: ConversionRow) {
    var source, target := WalletKey(c.userId, c.source.asset), WalletKey(c.userId, c.target.asset);
    && source in ws && Stored(ws[source], c.source.asset) && ws[source].reserved >= c.source.units
    && Stored(Row(ws, target), c.target.asset)
    && c.source.asset != c.target.asset
  }

  ghost predicate MovesOnly(ws: WalletTable, after: WalletTable, c: ConversionRow, o: Outcome) {
    forall k :: Row(after, k) == SettledRow(Row(ws, k), k, c, o)
  }

  lemma ReleaseMoves(ws: WalletTable, c: ConversionRow)
    requires Backed(ws, c)
    ensures var r := UpdateRow(ws, WalletKey(c.userId, c.source.asset), Release, c.source.units);
            r.Ok? && MovesOnly(ws, r.value, c, Failure)
  {
    hide Stored;
    MovedIsStored(ws[WalletKey(c.userId, c.source.asset)], c.source.asset, Release, c.source.units);
  }

  lemma CommitAndCreditMoves(ws: WalletTable, c: ConversionRow)
    requires Backed(ws, c)
    ensures CommitAndCredit(ws, c).Ok? <==> RoomForTarget(ws, c)
    ensures match CommitAndCredit(ws, c)
            case Ok(after) => MovesOnly(ws, after, c, Success)
            case Err(e) => e == ConstraintViolated
  {
    hide Stored;
    var source, target := WalletKey(c.userId, c.source.asset), WalletKey(c.userId, c.target.asset);
    MovedIsStored(ws[source], c.source.asset, Commit, c.source.units);
    var committed := ws[source := Moved(ws[source], Commit, c.source.units)];
    assert UpdateRow(ws, source, Commit, c.source.units) == Ok(committed);
    assert Row(committed, target) == Row(ws, target);
    MovedIsStored(Row(ws, target), c.target.asset, Credit, c.target.units);
  }

  lemma HeldFundsAreBacked(ws: WalletTable, rows: ConversionTable, funded: map<WalletKey, nat>, id: Id)
    requires LedgerOk(ws, rows, funded)
    requires id in rows && Holds(rows[id].status)
    requires rows[id].source.units > 0 && rows[id].source.asset != rows[id].target.asset
    ensures Backed(ws, rows[id])
  {
    hide Stored;
    HoldIsReserved(ws, rows, funded, id);
    assert InBalance(ws, rows, funded, WalletKey(rows[id].userId, rows[id].target.asset));
  }

  /** While a conversion holds funds the guards of commit, release and credit all hold: a settlement is
      refused only when the target balance would outgrow its column. When it goes through, it moves the
      two wallets and no other. */
  lemma SettlementRefusedOnlyWithoutRoom(ws: WalletTable, rows: ConversionTable, funded: map<WalletKey, nat>, id: Id,
                                  o: Outcome)
    requires LedgerOk(ws, rows, funded)
    requires id in rows && MovesFunds(rows[id].status)
    requires rows[id].source.units > 0 && rows[id].source.asset != rows[id].target.asset
    ensures MoveFunds(ws, rows[id], o).Ok? <==> (o == Success ==> RoomForTarget(ws, rows[id]))
    ensures match MoveFunds(ws, rows[id], o)
            case Ok(after) => MovesOnly(ws, after, rows[id], o)
            case Err(e) => e == ConstraintViolated
  {
    hide Backed, RoomForTarget;
    HeldFundsAreBacked(ws, rows, funded, id);
    ReleaseMoves(ws, rows[id]);
    CommitAndCreditMoves(ws, rows[id]);
  }

  /** And such a refusal does happen: 161 satoshi more than the column of the target balance can hold. */
  lemma FullColumnRefuses()
    ensures var c := ConversionRow(1, 2, Money(10000000, USDT), Money(161, BTC), ExecutionRequested, Some(3), 0,
                                   None, None);
            var usdt, btc := WalletKey(2, USDT), WalletKey(2, BTC);
            var held, full := WalletRow(10000000, 0, 10000000), WalletRow(Pow10(28) - 1, Pow10(28) - 1, 0);
            && Stored(held, USDT) && Stored(full, BTC)
            && MoveFunds(map[usdt := held, btc := full], c, Success) == Err(ConstraintViolated)
  {
    hide Stored, Pow10, UpdateRow, FitsColumn;
    LargestBalance();
    var most := Pow10(28) - 1;
    var usdt, btc := WalletKey(2, USDT), WalletKey(2, BTC);
    var held, full := WalletRow(10000000, 0, 10000000), WalletRow(most, most, 0);
    var ws := map[usdt := held, btc := full];
    CommitOfAll(ws, 2, 10000000);
    CreditOfTooMuch(ws[usdt := NO_FUNDS], 2, most, 161);
    assert CreateIfMissing(ws[usdt := NO_FUNDS], btc) == ws[usdt := NO_FUNDS];
  }

  lemma CommitOfAll(ws: WalletTable, user: Id, units: nat)
    requires WalletKey(user, USDT) in ws && ws[WalletKey(user, USDT)] == WalletRow(units, 0, units) && units < 100000000
    ensures Stored(WalletRow(units, 0, units), USDT)
    ensures UpdateRow(ws, WalletKey(user, USDT), Commit, units) == Ok(ws[WalletKey(user, USDT) := NO_FUNDS])
  {
    hide Pow10;
    EighthPower();
    PowMonotone(8, 26);
  }

  lemma CreditOfTooMuch(ws: WalletTable, user: Id, full: nat, units: nat)
    requires WalletKey(user, BTC) in ws && ws[WalletKey(user, BTC)] == WalletRow(full, full, 0)
    requires FitsColumn(full, BTC) && !FitsColumn(full + units, BTC)
    ensures Stored(ws[WalletKey(user, BTC)], BTC)
    ensures UpdateRow(ws, WalletKey(user, BTC), Credit, units) == Err(ConstraintViolated)
  {
    hide FitsColumn;
  }

  lemma LargestBalance()
    ensures Pow10(28) >= 1 && FitsColumn(Pow10(28) - 1, BTC) && !FitsColumn(Pow10(28) - 1 + 161, BTC)
  {
    hide Pow10;
    EighthPower();
    PowMonotone(8, 28);
  }

  lemma EighthPower()
    ensures Pow10(8) == 100000000
  {
  }

  /** The settlement's wallet movement and the final status together keep every wallet in balance. */
  lemma SettleKeepsLedger(ws: WalletTable, rows: ConversionTable, funded: map<WalletKey, nat>,
                          id: Id, o: Outcome, c: ConversionRow)
    requires LedgerOk(ws, rows, funded)
    requires id in rows && MovesFunds(rows[id].status)
    requires rows[id].source.units > 0 && rows[id].source.asset != rows[id].target.asset
    requires o != Unknown && SameIdentity(rows[id], c) && c.status == (if o == Success then Completed else Failed)
    requires MoveFunds(ws, rows[id], o).Ok?
    ensures LedgerOk(MoveFunds(ws, rows[id], o).value, rows[id := c], funded)
  {
    hide Stored, MoveFunds, SettledRow, RoomForTarget;
    SettlementRefusedOnlyWithoutRoom(ws, rows, funded, id, o);
    HeldFundsAreBacked(ws, rows, funded, id);
    var ws', rows' := MoveFunds(ws, rows[id], o).value, rows[id := c];
    forall k ensures InBalance(ws', rows', funded, k) {
      assert InBalance(ws, rows, funded, k);
      SettledRowStored(ws, rows[id], o, k);
      SettledTotals(ws, ws', rows, funded, id, o, c, k);
    }
  }

  lemma SettledRowStored(ws: WalletTable, c: ConversionRow, o: Outcome, k: WalletKey)
    requires Stored(Row(ws, k), k.asset) && Backed(ws, c)
    requires o == Success ==> RoomForTarget(ws, c)
    ensures Stored(SettledRow(Row(ws, k), k, c, o), k.asset)
  {
    hide Stored;
    if k == WalletKey(c.userId, c.source.asset) {
      MovedIsStored(Row(ws, k), k.asset, if o == Success then Commit else Release, c.source.units);
    } else if k == WalletKey(c.userId, c.target.asset) {
      MovedIsStored(Row(ws, k), k.asset, Credit, c.target.units);
    }
  }

  lemma SettledTotals(ws: WalletTable, ws': WalletTable, rows: ConversionTable, funded: map<WalletKey, nat>,
                      id: Id, o: Outcome, c: ConversionRow, k: WalletKey)
    requires InBalance(ws, rows, funded, k)
    requires id in rows && MovesFunds(rows[id].status) && rows[id].source.asset != rows[id].target.asset
    requires o != Unknown && SameIdentity(rows[id], c) && c.status == (if o == Success then Completed else Failed)
    requires Row(ws', k) == SettledRow(Row(ws, k), k, rows[id], o) && Stored(Row(ws', k), k.asset)
    ensures InBalance(ws', rows[id := c], funded, k)
  {
    hide Stored, Row;
    TotalUpdate(Held, k, rows, id, c);
    TotalUpdate(Net, k, rows, id, c);
  }

  // ----- value

  /** A user's holdings in units of 10^-17 USDT, one BTC counting as 62111.801242236 USDT. */
  function Value(ws: WalletTable, user: Id): int {
    Row(ws, WalletKey(user, USDT)).balance * 100000000000
    + Row(ws, WalletKey(user, BTC)).balance * 62111801242236
  }

  /** A settlement at terms that are worth no more than their source never raises anyone's value. */
  lemma SettlementGainsNothing(ws: WalletTable, ws': WalletTable, c: ConversionRow, o: Outcome, user: Id)
    requires c.source.asset != c.target.asset && Worth(c.target) <= Worth(c.source)
    requires MovesOnly(ws, ws', c, o)
    ensures Value(ws', user) <= Value(ws, user)
  {
    var usdt, btc := WalletKey(user, USDT), WalletKey(user, BTC);
    assert Row(ws', usdt) == SettledRow(Row(ws, usdt), usdt, c, o);
    assert Row(ws', btc) == SettledRow(Row(ws, btc), btc, c, o);
  }
}
