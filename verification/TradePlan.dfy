/** The daily trade job: plan every account from one snapshot, then fill the plan against the ledger. */
module TradePlan {
  import opened Money
  import opened Dict
  import opened Schemas
  import opened Ledger
  import opened Rebalance

  /** Targets per symbol; None when some load has not reported the bar. */
  type Analysis = Dict<string, Option<real>>
  type Prices = map<string, real>

  datatype Snapshot = Snapshot(cash: real, positions: Dict<string, real>, prices: Prices)
  datatype Row = Row(account: string, symbol: string, price: real, decision: Decision)

  /** Planned cash and positions of one account, updated after every planned trade. */
  datatype Book = Book(cash: real, positions: Dict<string, real>)

  function QuantityOf(positions: Dict<string, real>, symbol: string): real {
    match Get(positions, symbol) case Some(q) => q case None => 0.0
  }

  /** A missing or zero price means the symbol cannot be traded. */
  function PriceOf(prices: Prices, symbol: string): real {
    if symbol in prices then prices[symbol] else 0.0
  }

  function BookEquity(b: Book, prices: Prices): real {
    b.cash + Sum(b.positions, ValueAt(prices))
  }

  function ValueAt(prices: Prices): (string, real) -> real {
    (s: string, q: real) => q * PriceOf(prices, s)
  }

  function Choose(b: Book, prices: Prices, symbol: string, target: Option<real>, band: real): Decision {
    var price := PriceOf(prices, symbol);
    if price == 0.0 || target.None? then Hold
    else Decide(QuantityOf(b.positions, symbol), price, b.cash, BookEquity(b, prices), target.value, band)
  }

  function Planned(b: Book, symbol: string, price: real, d: Decision): Book {
    match d
    case Hold => b
    case Trade(BUY, q) => Book(b.cash - q * price * (1.0 + FEE_RATE),
                               Set(b.positions, symbol, QuantityOf(b.positions, symbol) + q))
    case Trade(SELL, q) => Book(b.cash + q * price * (1.0 - FEE_RATE),
                                Set(b.positions, symbol, QuantityOf(b.positions, symbol) - q))
  }

  /** The book an account reaches after its first n symbols. */
  function BookAfter(s: Snapshot, analysis: Analysis, band: real, n: nat): Book
    requires n <= |analysis|
  {
    if n == 0 then Book(s.cash, s.positions)
    else
      var b := BookAfter(s, analysis, band, n - 1);
      var (symbol, target) := analysis[n - 1];
      Planned(b, symbol, PriceOf(s.prices, symbol), Choose(b, s.prices, symbol, target, band))
  }

  function RowAt(account: string, s: Snapshot, analysis: Analysis, band: real, i: nat): Row
    requires i < |analysis|
  {
    var (symbol, target) := analysis[i];
    Row(account, symbol, PriceOf(s.prices, symbol),
        Choose(BookAfter(s, analysis, band, i), s.prices, symbol, target, band))
  }

  function AccountPlan(account: string, s: Snapshot, analysis: Analysis, band: real): (rows: seq<Row>)
    ensures |rows| == |analysis|
  {
    seq(|analysis|, i requires 0 <= i < |analysis| => RowAt(account, s, analysis, band, i))
  }

  function Plan(analysis: Analysis, snapshots: Dict<string, Snapshot>, band: real): seq<Row> {
    if snapshots == [] then []
    else
      var n := |snapshots| - 1;
      Plan(analysis, snapshots[..n], band) + AccountPlan(snapshots[n].0, snapshots[n].1, analysis, band)
  }

  method PlanDecisions(analysis: Analysis, snapshots: Dict<string, Snapshot>, band: real) returns (out: seq<Row>)
    ensures out == Plan(analysis, snapshots, band)
  {
    hide Choose, Planned;
    out := [];
    for k := 0 to |snapshots|
      invariant out == Plan(analysis, snapshots[..k], band)
    {
      var (account, s) := snapshots[k];
      var cash, positions := s.cash, s.positions;
      ghost var before := out;
      for i := 0 to |analysis|
        invariant Book(cash, positions) == BookAfter(s, analysis, band, i)
        invariant out == before + AccountPlan(account, s, analysis, band)[..i]
      {
        var (symbol, target) := analysis[i];
        var price := PriceOf(s.prices, symbol);
        var d := Choose(Book(cash, positions), s.prices, symbol, target, band);
        out := out + [Row(account, symbol, price, d)];
        var next := Planned(Book(cash, positions), symbol, price, d);
        cash, positions := next.cash, next.positions;
      }
      assert snapshots[..k + 1][..k] == snapshots[..k];
      assert AccountPlan(account, s, analysis, band)[..|analysis|] == AccountPlan(account, s, analysis, band);
    }
    assert snapshots[..|snapshots|] == snapshots;
  }

  // ----- Planned cash and positions -----

  ghost predicate Solvent(b: Book) {
    b.cash >= 0.0 && forall s :: QuantityOf(b.positions, s) >= 0.0
  }

  lemma ChooseSpends(b: Book, prices: Prices, symbol: string, target: Option<real>, band: real)
    requires Choose(b, prices, symbol, target, band).Trade?
    ensures var d := Choose(b, prices, symbol, target, band); var price := PriceOf(prices, symbol);
      && price > 0.0 && d.quantity > 0.0
      && (d.side.BUY? ==> price * d.quantity * (1.0 + FEE_RATE) <= b.cash - TICK
                          && price * d.quantity + Fee(price, d.quantity) <= b.cash - HALF_TICK)
      && (d.side.SELL? ==> d.quantity <= QuantityOf(b.positions, symbol))
  {
    hide Decide, Fee, BookEquity;
    var d, price := Choose(b, prices, symbol, target, band), PriceOf(prices, symbol);
    if d.side.BUY? {
      BuyFitsCash(QuantityOf(b.positions, symbol), price, b.cash, BookEquity(b, prices), target.value, band);
    } else {
      SellIsHeld(QuantityOf(b.positions, symbol), price, b.cash, BookEquity(b, prices), target.value, band);
    }
  }

  lemma WorthAt(prices: Prices, symbol: string, q: real)
    ensures ValueAt(prices)(symbol, q) == if symbol in prices then q * prices[symbol] else 0.0
  {
    assert ValueAt(prices)(symbol, q) == q * PriceOf(prices, symbol);
  }

  /** A symbol without a price, or with a price of zero, or that some load has not reported, is held; in the equity a
      position counts at its price, and for nothing without one. */
  lemma UnpricedIsHeld(b: Book, prices: Prices, symbol: string, target: Option<real>, band: real, q: real)
    ensures symbol !in prices || prices[symbol] == 0.0 || target.None? ==> Choose(b, prices, symbol, target, band).Hold?
    ensures BookEquity(b.(positions := []), prices) == b.cash
    ensures BookEquity(b.(positions := b.positions + [(symbol, q)]), prices)
            == BookEquity(b, prices) + if symbol in prices then q * prices[symbol] else 0.0
  {
    SumAppend(b.positions, symbol, q, ValueAt(prices));
    WorthAt(prices, symbol, q);
  }

  /** What a planned trade of value v does to planned cash. */
  lemma PlannedCash(b: Book, symbol: string, price: real, d: Decision, v: real)
    requires d.Trade? && v == price * d.quantity
    ensures Planned(b, symbol, price, d).cash
            == if d.side.BUY? then b.cash - v - FEE_RATE * v else b.cash + v - FEE_RATE * v
  {
    assert d.quantity * price == v;
  }

  lemma PlannedPositions(b: Book, symbol: string, price: real, d: Decision)
    requires d.Trade?
    ensures forall s :: (
      QuantityOf(Planned(b, symbol, price, d).positions, s)
      == if s != symbol then QuantityOf(b.positions, s)
         else if d.side.BUY? then QuantityOf(b.positions, s) + d.quantity
         else QuantityOf(b.positions, s) - d.quantity)
  {
  }

  lemma PlannedStaysSolvent(b: Book, prices: Prices, symbol: string, target: Option<real>, band: real)
    requires Solvent(b)
    ensures Solvent(Planned(b, symbol, PriceOf(prices, symbol), Choose(b, prices, symbol, target, band)))
  {
    hide Choose, Fee;
    var d, price := Choose(b, prices, symbol, target, band), PriceOf(prices, symbol);
    if d.Trade? {
      ChooseSpends(b, prices, symbol, target, band);
      ProductSign(price, d.quantity);
      PlannedCash(b, symbol, price, d, price * d.quantity);
      PlannedPositions(b, symbol, price, d);
    }
  }

  /** Planned cash and positions never go negative, whatever the targets, prices and accounts. */
  lemma {:induction false} PlanStaysSolvent(s: Snapshot, analysis: Analysis, band: real, n: nat)
    requires n <= |analysis| && Solvent(Book(s.cash, s.positions))
    ensures Solvent(BookAfter(s, analysis, band, n))
  {
    hide Choose, Planned;
    if n > 0 {
      PlanStaysSolvent(s, analysis, band, n - 1);
      PlannedStaysSolvent(BookAfter(s, analysis, band, n - 1), s.prices, analysis[n - 1].0, analysis[n - 1].1, band);
    }
  }

  // ----- Filling the plan -----

  function FillOf(row: Row, serial: nat): Execution
    requires row.decision.Trade?
  {
    var q := row.decision.quantity;
    Execution(Uuid4(serial), serial, row.account, row.symbol, row.decision.side, row.price, q, Fee(row.price, q))
  }

  /** The PENDING row inserted in the same transaction, without an outbox row. */
  function WithOrder(db: Tables, row: Row, serial: nat): Tables
    requires row.decision.Trade?
  {
    var o := Order(serial, row.account, row.symbol, row.decision.side, MARKET, row.decision.quantity);
    db.(orders := db.orders[serial := OrderRow(o, PENDING)])
  }

  function FillRow(db: Tables, row: Row, serial: nat): (Tables, Outcome)
    requires row.decision.Trade?
  {
    Apply(WithOrder(db, row, serial), FillOf(row, serial))
  }

  function FillAll(db: Tables, rows: seq<Row>, serial: nat): Tables {
    if rows == [] then db
    else
      var front, row := rows[..|rows| - 1], rows[|rows| - 1];
      if row.decision.Hold? then FillAll(db, front, serial)
      else FillRow(FillAll(db, front, serial), row, serial + |rows|).0
  }

  /** Planned trades the ledger refuses, in order. */
  function Refusals(db: Tables, rows: seq<Row>, serial: nat): nat {
    if rows == [] then 0
    else
      var front, row := rows[..|rows| - 1], rows[|rows| - 1];
      Refusals(db, front, serial)
      + (if row.decision.Trade? && FillRow(FillAll(db, front, serial), row, serial + |rows|).1.Rejected? then 1 else 0)
  }

  method ExecutePlan(db: Database, rows: seq<Row>, serial: nat) returns (rejected: nat)
    modifies db
    ensures db.Contents() == FillAll(old(db.Contents()), rows, serial)
    ensures rejected == Refusals(old(db.Contents()), rows, serial)
  {
    hide Apply;
    rejected := 0;
    for i := 0 to |rows|
      invariant db.Contents() == FillAll(old(db.Contents()), rows[..i], serial)
      invariant rejected == Refusals(old(db.Contents()), rows[..i], serial)
    {
      assert rows[..i + 1][..i] == rows[..i];
      if rows[i].decision.Trade? {
        var row, id := rows[i], serial + i + 1;
        var o := Order(id, row.account, row.symbol, row.decision.side, MARKET, row.decision.quantity);
        db.orders := db.orders[id := OrderRow(o, PENDING)];
        var outcome := db.ApplyExecution(FillOf(row, id));
        if outcome.Rejected? {
          rejected := rejected + 1;
        }
      }
    }
    assert rows[..|rows|] == rows;
  }

  lemma FillKeepsFresh(db: Tables, row: Row, serial: nat)
    requires row.decision.Trade? && FreshFrom(db, serial)
    ensures FreshFrom(FillRow(db, row, serial).0, serial + 1)
    ensures !Recorded(WithOrder(db, row, serial), Uuid4(serial))
  {
    hide Apply;
    ApplyShape(WithOrder(db, row, serial), FillOf(row, serial));
  }

  /** Other accounts and other symbols are untouched by a fill. */
  lemma FillFrame(db: Tables, row: Row, serial: nat, account: string, symbol: string)
    requires row.decision.Trade?
    ensures var db' := FillRow(db, row, serial).0;
      && db'.accounts.Keys == db.accounts.Keys
      && (account in db.accounts && row.account != account ==> db'.accounts[account] == db.accounts[account])
      && (row.account != account || row.symbol != symbol ==> Held(db', account, symbol) == Held(db, account, symbol))
  {
    hide Fee;
    var db1 := WithOrder(db, row, serial);
    var ex := FillOf(row, serial);
    ApplyShape(db1, ex);
    if Apply(db1, ex).1.Applied? {
      AppliedMoney(db1, ex);
    }
  }

  lemma LedgerMove(balance: real, ex: Execution, v: real)
    requires v == ex.price * ex.quantity && ex.fee == Fee(ex.price, ex.quantity)
    ensures -TICK <= Debited(balance, ex) - (balance - v - FEE_RATE * v) <= TICK
    ensures -TICK <= Credited(balance, ex) - (balance + v - FEE_RATE * v) <= TICK
    ensures Cost(ex) == v + ex.fee && Proceeds(ex) == v - ex.fee
    ensures balance >= Cost(ex) ==> Debited(balance, ex) >= 0.0
    ensures balance + Proceeds(ex) >= 0.0 ==> Credited(balance, ex) >= 0.0
  {
    hide RoundHalfUp, Fee, Cost, Proceeds;
    FeeOf(ex.price, ex.quantity, v);
    CostOf(ex, v);
  }

  lemma CostOf(ex: Execution, v: real)
    requires v == ex.price * ex.quantity
    ensures Cost(ex) == v + ex.fee && Proceeds(ex) == v - ex.fee
  {
  }

  /** A planned BUY: applied exactly when the ledger holds its cost, and then cash moves as planned to a tick. */
  lemma BuyFills(db: Tables, row: Row, serial: nat, v: real)
    requires row.decision.Trade? && row.decision.side.BUY? && FreshFrom(db, serial)
    requires row.account in db.accounts && row.decision.quantity > 0.0 && Held(db, row.account, row.symbol) >= 0.0
    requires v == row.price * row.decision.quantity
    ensures var (db', outcome) := FillRow(db, row, serial);
      var q := row.decision.quantity;
      && (outcome.Applied? <==> db.accounts[row.account] >= v + Fee(row.price, q))
      && (!outcome.Applied? ==> outcome.Rejected? && db'.accounts == db.accounts && db'.positions == db.positions)
      && (outcome.Applied? ==>
            && row.account in db'.accounts && db'.accounts[row.account] >= 0.0
            && -TICK <= db'.accounts[row.account] - (db.accounts[row.account] - v - FEE_RATE * v) <= TICK
            && Held(db', row.account, row.symbol) == Held(db, row.account, row.symbol) + q)
  {
    hide Apply, Fee, Debited, Credited, Cost;
    var db1, ex := WithOrder(db, row, serial), FillOf(row, serial);
    FillKeepsFresh(db, row, serial);
    LedgerMove(db.accounts[row.account], ex, v);
    BuyOutcome(db1, ex);
    if Apply(db1, ex).1.Applied? {
      AppliedMoney(db1, ex);
    }
  }

  /** A planned SELL of held quantity is always applied. */
  lemma SellFills(db: Tables, row: Row, serial: nat, v: real)
    requires row.decision.Trade? && row.decision.side.SELL? && FreshFrom(db, serial)
    requires row.account in db.accounts && db.accounts[row.account] >= 0.0 && row.price > 0.0
    requires 0.0 < row.decision.quantity <= Held(db, row.account, row.symbol)
    requires v == row.price * row.decision.quantity && v >= 0.0
    ensures var (db', outcome) := FillRow(db, row, serial);
      var q := row.decision.quantity;
      && outcome.Applied? && row.account in db'.accounts && db'.accounts[row.account] >= 0.0
      && -TICK <= db'.accounts[row.account] - (db.accounts[row.account] + v - FEE_RATE * v) <= TICK
      && Held(db', row.account, row.symbol) == Held(db, row.account, row.symbol) - q
  {
    hide Apply, Fee, Debited, Credited, Proceeds;
    var db1, ex := WithOrder(db, row, serial), FillOf(row, serial);
    FillKeepsFresh(db, row, serial);
    LedgerMove(db.accounts[row.account], ex, v);
    FeeBelowValue(row.price, row.decision.quantity, v);
    SellOutcome(db1, ex);
    AppliedMoney(db1, ex);
  }

  /** A fee never exceeds the value it is charged on. */
  lemma FeeBelowValue(price: real, quantity: real, v: real)
    requires v == price * quantity && v >= 0.0
    ensures Fee(price, quantity) <= v
  {
    FeeOf(price, quantity, v);
    if v < TICK {
      var y := v * FEE_RATE * 10000.0;
      assert price * quantity * FEE_RATE == v * FEE_RATE;
      assert 0.0 <= y < 0.5;
      assert y.Floor == 0;
    }
  }

  // ----- The whole plan against the ledger -----

  function AppliedIn(db: Tables, rows: seq<Row>, serial: nat, account: string): nat {
    if rows == [] then 0
    else
      var front, row := rows[..|rows| - 1], rows[|rows| - 1];
      AppliedIn(db, front, serial, account)
      + (if row.account == account && row.decision.Trade?
            && FillRow(FillAll(db, front, serial), row, serial + |rows|).1.Applied? then 1 else 0)
  }

  /** The rows of an account whose trade the ledger applied. */
  ghost function AppliedRows(db: Tables, rows: seq<Row>, serial: nat, account: string): set<nat> {
    set i: nat | i < |rows| && rows[i].account == account && rows[i].decision.Trade?
                 && FillRow(FillAll(db, rows[..i], serial), rows[i], serial + i + 1).1.Applied?
  }

  lemma {:induction false} AppliedAreCounted(db: Tables, rows: seq<Row>, serial: nat, account: string)
    ensures AppliedIn(db, rows, serial, account) == |AppliedRows(db, rows, serial, account)|
  {
    hide FillRow, FillAll;
    if rows == [] {
      assert AppliedRows(db, rows, serial, account) == {};
    } else {
      var n: nat := |rows| - 1;
      var front := rows[..n];
      AppliedAreCounted(db, front, serial, account);
      var before, after := AppliedRows(db, front, serial, account), AppliedRows(db, rows, serial, account);
      assert forall i: nat :: i < n ==> front[..i] == rows[..i];
      assert after == before + if n in after then {n} else {};
    }
  }

  /** No order of the account was refused. */
  predicate CleanIn(db: Tables, rows: seq<Row>, serial: nat, account: string) {
    rows == [] ||
    var front, row := rows[..|rows| - 1], rows[|rows| - 1];
    CleanIn(db, front, serial, account)
    && (row.account == account && row.decision.Trade? ==>
          FillRow(FillAll(db, front, serial), row, serial + |rows|).1.Applied?)
  }

  /** The planned book of an account after some rows of the plan. */
  function BookFrom(s: Snapshot, rows: seq<Row>, account: string): Book {
    if rows == [] then Book(s.cash, s.positions)
    else
      var front, row := rows[..|rows| - 1], rows[|rows| - 1];
      var b := BookFrom(s, front, account);
      if row.account == account then Planned(b, row.symbol, row.price, row.decision) else b
  }

  /** What planning guarantees of one row, given the book it was planned on. */
  ghost predicate SoundRow(b: Book, row: Row) {
    row.decision.Trade? ==>
      var q := row.decision.quantity;
      && row.price > 0.0 && q > 0.0
      && (row.decision.side.BUY? ==> row.price * q + Fee(row.price, q) <= b.cash - HALF_TICK)
      && (row.decision.side.SELL? ==> q <= QuantityOf(b.positions, row.symbol))
  }

  /** Every row of the account is sound, and no symbol of it comes twice. */
  ghost predicate SoundFor(rows: seq<Row>, s: Snapshot, account: string) {
    && (forall i :: 0 <= i < |rows| && rows[i].account == account ==>
          SoundRow(BookFrom(s, rows[..i], account), rows[i]))
    && (forall i, j :: 0 <= i < j < |rows| && rows[i].account == account && rows[j].account == account ==>
          rows[i].symbol != rows[j].symbol)
  }

  predicate Visited(rows: seq<Row>, account: string, symbol: string) {
    exists i :: 0 <= i < |rows| && rows[i].account == account && rows[i].symbol == symbol
  }

  /** The ledger follows the plan: never more than a tick per applied order short of it, and after a clean run
      never more than that ahead of it either, with exactly the planned quantities. */
  ghost predicate Tracks(start: Tables, rows: seq<Row>, serial: nat, s: Snapshot, account: string) {
    var db, b := FillAll(start, rows, serial), BookFrom(s, rows, account);
    var drift := AppliedIn(start, rows, serial, account) as real * TICK;
    && account in db.accounts && db.accounts[account] >= b.cash - drift && db.accounts[account] >= 0.0
    && FreshFrom(db, serial + |rows| + 1)
    && (forall symbol :: Held(db, account, symbol) >= 0.0)
    && (forall symbol :: !Visited(rows, account, symbol) || CleanIn(start, rows, serial, account) ==>
          Held(db, account, symbol) == QuantityOf(b.positions, symbol))
    && (CleanIn(start, rows, serial, account) ==> db.accounts[account] <= b.cash + drift)
  }

  ghost predicate Matches(db: Tables, s: Snapshot, account: string) {
    && account in db.accounts && db.accounts[account] == s.cash >= 0.0
    && forall symbol :: Held(db, account, symbol) == QuantityOf(s.positions, symbol) >= 0.0
  }

  lemma OtherRowTracks(start: Tables, front: seq<Row>, row: Row, serial: nat, s: Snapshot, account: string)
    requires Tracks(start, front, serial, s, account)
    requires row.account != account || row.decision.Hold?
    ensures Tracks(start, front + [row], serial, s, account)
  {
    hide FillRow;
    var rows := front + [row];
    assert rows[..|front|] == front;
    var db := FillAll(start, front, serial);
    if row.decision.Trade? {
      FillKeepsFresh(db, row, serial + |rows|);
      forall symbol
        ensures Held(FillAll(start, rows, serial), account, symbol) == Held(db, account, symbol)
      {
        FillFrame(db, row, serial + |rows|, account, symbol);
      }
      FillFrame(db, row, serial + |rows|, account, row.symbol);
    }
    forall symbol
      ensures Visited(front, account, symbol) ==> Visited(rows, account, symbol)
    {
      if Visited(front, account, symbol) {
        var i :| 0 <= i < |front| && front[i].account == account && front[i].symbol == symbol;
        assert rows[i] == front[i];
      }
    }
  }

  lemma VisitedAfter(front: seq<Row>, row: Row, account: string, symbol: string)
    ensures Visited(front + [row], account, symbol)
            <==> Visited(front, account, symbol) || (row.account == account && row.symbol == symbol)
  {
    var rows := front + [row];
    if Visited(front, account, symbol) {
      var i :| 0 <= i < |front| && front[i].account == account && front[i].symbol == symbol;
      assert rows[i] == front[i];
    }
    assert rows[|front|] == row;
  }

  /** The account's own order: how balance, quantities and the drift budget move together. */
  lemma OwnRowTracks(start: Tables, front: seq<Row>, row: Row, serial: nat, s: Snapshot, account: string, v: real)
    requires Tracks(start, front, serial, s, account)
    requires row.account == account && row.decision.Trade? && v == row.price * row.decision.quantity
    requires SoundRow(BookFrom(s, front, account), row) && !Visited(front, account, row.symbol)
    ensures Tracks(start, front + [row], serial, s, account)
    ensures row.decision.side.SELL? ==>
      FillRow(FillAll(start, front, serial), row, serial + |front| + 1).1.Applied?
    ensures AppliedIn(start, front, serial, account) == 0 ==>
      FillRow(FillAll(start, front, serial), row, serial + |front| + 1).1.Applied?
  {
    hide FillRow, Fee, Planned;
    var rows, id := front + [row], serial + |front| + 1;
    assert rows[..|front|] == front;
    var db, b := FillAll(start, front, serial), BookFrom(s, front, account);
    var b' := Planned(b, row.symbol, row.price, row.decision);
    ProductSign(row.price, row.decision.quantity);
    FillKeepsFresh(db, row, id);
    PlannedCash(b, row.symbol, row.price, row.decision, v);
    PlannedPositions(b, row.symbol, row.price, row.decision);
    FeeOf(row.price, row.decision.quantity, v);
    if row.decision.side.BUY? {
      BuyFills(db, row, id, v);
    } else {
      SellFills(db, row, id, v);
    }
    forall symbol
      ensures Visited(rows, account, symbol) <==> Visited(front, account, symbol) || symbol == row.symbol
      ensures symbol != row.symbol ==>
        Held(FillAll(start, rows, serial), account, symbol) == Held(db, account, symbol)
    {
      VisitedAfter(front, row, account, symbol);
      FillFrame(db, row, id, account, symbol);
    }
  }

  lemma SoundAppend(front: seq<Row>, row: Row, s: Snapshot, account: string)
    requires SoundFor(front, s, account)
    requires row.account == account ==>
      SoundRow(BookFrom(s, front, account), row) && !Visited(front, account, row.symbol)
    ensures SoundFor(front + [row], s, account)
  {
    hide SoundRow, BookFrom;
    var rows := front + [row];
    assert rows[..|front|] == front;
    assert forall i :: 0 <= i < |front| ==> rows[..i] == front[..i];
  }

  lemma SoundFront(rows: seq<Row>, s: Snapshot, account: string)
    requires rows != [] && SoundFor(rows, s, account)
    ensures var front, row := rows[..|rows| - 1], rows[|rows| - 1];
      SoundFor(front, s, account)
      && (row.account == account ==> SoundRow(BookFrom(s, front, account), row) && !Visited(front, account, row.symbol))
  {
    hide SoundRow, BookFrom;
    var front := rows[..|rows| - 1];
    assert forall i :: 0 <= i < |front| ==> rows[..i] == front[..i];
  }

  /** Any sound sequence of rows, executed in order, keeps the ledger on the plan. */
  lemma {:induction false} SoundRowsTrack(start: Tables, rows: seq<Row>, serial: nat, s: Snapshot, account: string)
    requires Matches(start, s, account) && FreshFrom(start, serial + 1) && SoundFor(rows, s, account)
    ensures Tracks(start, rows, serial, s, account)
  {
    hide SoundFor, SoundRow;
    if rows != [] {
      var front, row := rows[..|rows| - 1], rows[|rows| - 1];
      SoundFront(rows, s, account);
      SoundRowsTrack(start, front, serial, s, account);
      assert rows == front + [row];
      if row.account == account && row.decision.Trade? {
        OwnRowTracks(start, front, row, serial, s, account, row.price * row.decision.quantity);
      } else {
        OtherRowTracks(start, front, row, serial, s, account);
      }
    }
  }

  predicate Named(rows: seq<Row>, account: string) {
    exists i :: 0 <= i < |rows| && rows[i].account == account
  }

  lemma {:induction false} ForeignRows(front: seq<Row>, more: seq<Row>, s: Snapshot, account: string)
    requires SoundFor(front, s, account) && !Named(more, account)
    ensures SoundFor(front + more, s, account)
  {
    hide SoundFor;
    if more == [] {
      assert front + more == front;
    } else {
      var m := more[..|more| - 1];
      assert !Named(m, account) && more[|more| - 1].account != account;
      ForeignRows(front, m, s, account);
      SoundAppend(front + m, more[|more| - 1], s, account);
      assert front + more == front + m + [more[|more| - 1]];
    }
  }

  lemma {:induction false} UnnamedBook(s: Snapshot, rows: seq<Row>, account: string)
    requires !Named(rows, account)
    ensures BookFrom(s, rows, account) == Book(s.cash, s.positions)
    ensures SoundFor(rows, s, account)
  {
    if rows != [] {
      assert !Named(rows[..|rows| - 1], account) && rows[|rows| - 1].account != account;
      UnnamedBook(s, rows[..|rows| - 1], account);
    }
  }

  ghost predicate DistinctKeys<V>(d: Dict<string, V>) {
    forall i, j :: 0 <= i < j < |d| ==> d[i].0 != d[j].0
  }

  lemma PlannedRowSound(account: string, s: Snapshot, analysis: Analysis, band: real, i: nat)
    requires i < |analysis| && Solvent(Book(s.cash, s.positions))
    ensures SoundRow(BookAfter(s, analysis, band, i), RowAt(account, s, analysis, band, i))
  {
    hide Choose, Fee;
    PlanStaysSolvent(s, analysis, band, i);
    if RowAt(account, s, analysis, band, i).decision.Trade? {
      ChooseSpends(BookAfter(s, analysis, band, i), s.prices, analysis[i].0, analysis[i].1, band);
    }
  }

  /** The rows planned for an account are sound on top of rows that are not its own. */
  lemma {:induction false} SegmentSound(before: seq<Row>, account: string, s: Snapshot, analysis: Analysis, band: real,
                                       n: nat)
    requires n <= |analysis| && DistinctKeys(analysis) && !Named(before, account)
    requires Solvent(Book(s.cash, s.positions))
    ensures var rows := before + AccountPlan(account, s, analysis, band)[..n];
      SoundFor(rows, s, account) && BookFrom(s, rows, account) == BookAfter(s, analysis, band, n)
  {
    hide SoundFor, SoundRow, Choose, Planned;
    var plan := AccountPlan(account, s, analysis, band);
    if n == 0 {
      assert before + plan[..0] == before;
      UnnamedBook(s, before, account);
    } else {
      SegmentSound(before, account, s, analysis, band, n - 1);
      var front, row := before + plan[..n - 1], plan[n - 1];
      assert before + plan[..n] == front + [row] && (front + [row])[..|front|] == front;
      PlannedRowSound(account, s, analysis, band, n - 1);
      assert forall i :: 0 <= i < |before| ==> front[i] == before[i] && before[i].account != account;
      forall i | |before| <= i < |front|
        ensures front[i].symbol != row.symbol
      {
        assert front[i] == plan[i - |before|];
      }
      assert !Visited(front, account, row.symbol);
      SoundAppend(front, row, s, account);
    }
  }

  lemma {:induction false} PlanNames(analysis: Analysis, snapshots: Dict<string, Snapshot>, band: real, account: string)
    requires forall k :: 0 <= k < |snapshots| ==> snapshots[k].0 != account
    ensures !Named(Plan(analysis, snapshots, band), account)
  {
    hide Choose;
    if snapshots != [] {
      PlanNames(analysis, snapshots[..|snapshots| - 1], band, account);
    }
  }

  lemma {:induction false} PlanIsSound(analysis: Analysis, snapshots: Dict<string, Snapshot>, band: real, k: nat)
    requires k < |snapshots| && DistinctKeys(analysis) && DistinctKeys(snapshots)
    requires Solvent(Book(snapshots[k].1.cash, snapshots[k].1.positions))
    ensures SoundFor(Plan(analysis, snapshots, band), snapshots[k].1, snapshots[k].0)
  {
    hide SoundFor, Choose;
    var n := |snapshots| - 1;
    var front := Plan(analysis, snapshots[..n], band);
    var plan := AccountPlan(snapshots[n].0, snapshots[n].1, analysis, band);
    if k < n {
      PlanIsSound(analysis, snapshots[..n], band, k);
      assert !Named(plan, snapshots[k].0);
      ForeignRows(front, plan, snapshots[k].1, snapshots[k].0);
    } else {
      PlanNames(analysis, snapshots[..n], band, snapshots[n].0);
      SegmentSound(front, snapshots[n].0, snapshots[n].1, analysis, band, |analysis|);
      assert plan[..|analysis|] == plan;
    }
  }

  /** Any number of accounts and symbols: filling the plan in order keeps every account's ledger on its planned
      book, never short by more than a tick per applied order. */
  lemma PlanTracksLedger(start: Tables, analysis: Analysis, snapshots: Dict<string, Snapshot>, band: real,
                         serial: nat, k: nat)
    requires k < |snapshots| && DistinctKeys(analysis) && DistinctKeys(snapshots)
    requires Matches(start, snapshots[k].1, snapshots[k].0) && FreshFrom(start, serial + 1)
    ensures Tracks(start, Plan(analysis, snapshots, band), serial, snapshots[k].1, snapshots[k].0)
  {
    PlanIsSound(analysis, snapshots, band, k);
    SoundRowsTrack(start, Plan(analysis, snapshots, band), serial, snapshots[k].1, snapshots[k].0);
  }

  /** At every point of the execution: a planned SELL is applied, and so is the account's first order. */
  lemma {:induction false} SellsAndFirstOrdersApply(start: Tables, rows: seq<Row>, serial: nat, s: Snapshot,
                                                    account: string)
    requires Matches(start, s, account) && FreshFrom(start, serial + 1) && SoundFor(rows, s, account)
    requires rows != [] && rows[|rows| - 1].account == account && rows[|rows| - 1].decision.Trade?
    ensures var front, row := rows[..|rows| - 1], rows[|rows| - 1];
      row.decision.side.SELL? || AppliedIn(start, front, serial, account) == 0
      ==> FillRow(FillAll(start, front, serial), row, serial + |rows|).1.Applied?
  {
    hide SoundFor, SoundRow, FillRow;
    var front, row := rows[..|rows| - 1], rows[|rows| - 1];
    SoundFront(rows, s, account);
    SoundRowsTrack(start, front, serial, s, account);
    OwnRowTracks(start, front, row, serial, s, account, row.price * row.decision.quantity);
  }

  // ----- A planned purchase the ledger refuses -----

  const RISING := "A"
  const FALLING := "B"

  /** One held symbol to leave, one to enter with everything. */
  const SWITCH := Snapshot(0.0, [(FALLING, 1.0)], map[FALLING := 10000.10004, RISING := 1.0])
  const SWITCH_TARGETS: Analysis := [(FALLING, Some(0.0)), (RISING, Some(1.0))]
  const SWITCH_CASH := 9995.09998998
  const SWITCH_BUY := 9990.10483756

  lemma SwitchSells(band: real)
    ensures Choose(Book(0.0, SWITCH.positions), SWITCH.prices, FALLING, Some(0.0), band) == Trade(SELL, 1.0)
    ensures Planned(Book(0.0, SWITCH.positions), FALLING, 10000.10004, Trade(SELL, 1.0))
            == Book(SWITCH_CASH, [(FALLING, 0.0)])
  {
    var b := Book(0.0, SWITCH.positions);
    SumOne(FALLING, 1.0, ValueAt(SWITCH.prices));
    assert BookEquity(b, SWITCH.prices) == 10000.10004;
  }

  lemma SwitchBuys(band: real)
    ensures Choose(Book(SWITCH_CASH, [(FALLING, 0.0)]), SWITCH.prices, RISING, Some(1.0), band)
         == Trade(BUY, SWITCH_BUY)
  {
    var b := Book(SWITCH_CASH, [(FALLING, 0.0)]);
    SumOne(FALLING, 0.0, ValueAt(SWITCH.prices));
    assert QuantityOf(b.positions, RISING) == 0.0;
    assert BookEquity(b, SWITCH.prices) == SWITCH_CASH;
    var x := (SWITCH_CASH - TICK) / (1.0 * (1.0 + FEE_RATE));
    assert (x * 100000000.0).Floor == 999010483756;
  }

  lemma SwitchFees()
    ensures Fee(10000.10004, 1.0) == 5.0001 && Fee(1.0, SWITCH_BUY) == 4.9951
  {
    assert (10000.10004 * 1.0 * FEE_RATE * 10000.0).Floor == 50000;
    assert (1.0 * SWITCH_BUY * FEE_RATE * 10000.0).Floor == 49950;
  }

  lemma SwitchRounds()
    ensures RoundHalfUp(9995.09994) == 9995.0999
  {
    assert (9995.09994 * 10000.0 + 0.5).Floor == 99950999;
  }

  /** After a sale the ledger may lag the plan by almost a tick; an all-in purchase planned on top is refused. */
  lemma PlanCanBeRefused(start: Tables, account: string, serial: nat, band: real)
    requires Matches(start, SWITCH, account) && FreshFrom(start, serial + 1)
    ensures var rows := AccountPlan(account, SWITCH, SWITCH_TARGETS, band);
      && rows == [Row(account, FALLING, 10000.10004, Trade(SELL, 1.0)),
                  Row(account, RISING, 1.0, Trade(BUY, SWITCH_BUY))]
      && FillRow(FillAll(start, rows[..1], serial), rows[1], serial + 2).1.Rejected?
  {
    hide Choose, Planned, Fee, RoundHalfUp, BlendedCost, UnitCost;
    SwitchSells(band);
    SwitchBuys(band);
    SwitchFees();
    SwitchRounds();
    var rows := AccountPlan(account, SWITCH, SWITCH_TARGETS, band);
    assert BookAfter(SWITCH, SWITCH_TARGETS, band, 0) == Book(0.0, SWITCH.positions);
    assert rows[0] == Row(account, FALLING, 10000.10004, Trade(SELL, 1.0));
    assert BookAfter(SWITCH, SWITCH_TARGETS, band, 1) == Book(SWITCH_CASH, [(FALLING, 0.0)]);
    assert rows[1] == Row(account, RISING, 1.0, Trade(BUY, SWITCH_BUY));
    SwitchRefused(start, account, serial, rows[0], rows[1]);
    assert rows[..1][..0] == [] && rows[..1] == [rows[0]];
  }

  lemma SwitchRefused(start: Tables, account: string, serial: nat, sale: Row, purchase: Row)
    requires Matches(start, SWITCH, account) && FreshFrom(start, serial + 1)
    requires sale == Row(account, FALLING, 10000.10004, Trade(SELL, 1.0))
    requires purchase == Row(account, RISING, 1.0, Trade(BUY, SWITCH_BUY))
    ensures FillRow(FillRow(start, sale, serial + 1).0, purchase, serial + 2).1.Rejected?
  {
    hide Apply, Fee, RoundHalfUp;
    SwitchFees();
    SwitchRounds();
    var (db, outcome) := FillRow(start, sale, serial + 1);
    assert Get(SWITCH.positions, FALLING) == Some(1.0);
    assert Held(start, account, FALLING) == QuantityOf(SWITCH.positions, FALLING) == 1.0;
    assert Held(start, account, RISING) == QuantityOf(SWITCH.positions, RISING);
    SellFills(start, sale, serial + 1, 10000.10004);
    FillKeepsFresh(start, sale, serial + 1);
    AppliedMoney(WithOrder(start, sale, serial + 1), FillOf(sale, serial + 1));
    assert db.accounts[account] == 9995.0999;
    FillFrame(start, sale, serial + 1, account, RISING);
    BuyFills(db, purchase, serial + 2, SWITCH_BUY);
  }
}
