/** The ledger: order placement and idempotent application of executions to balances and positions. */
module Ledger {
  import opened Money
  import opened Schemas

  datatype Status = PENDING | FILLED | REJECTED
  datatype OrderRow = OrderRow(order: Order, status: Status)
  datatype OutboxRow = OutboxRow(payload: Order, published: bool)
  datatype Holding = Holding(quantity: real, avgBuyPrice: real)
  datatype Tables = Tables(
    orders: map<nat, OrderRow>,
    outbox: seq<OutboxRow>,
    executions: seq<Execution>,
    accounts: map<string, real>,
    positions: map<(string, string), Holding>)

  /** Raised is an exception: the transaction rolls back and the offset is not committed. */
  datatype Outcome = Applied | Duplicate | Rejected | Raised

  /** The row an execution leaves behind: money columns are NUMERIC(20,4). */
  function Stored(ex: Execution): Execution {
    ex.(price := RoundHalfUp(ex.price), fee := RoundHalfUp(ex.fee))
  }

  function Held(db: Tables, account: string, symbol: string): real {
    if (account, symbol) in db.positions then db.positions[(account, symbol)].quantity else 0.0
  }

  predicate Recorded(db: Tables, id: ExecutionId) {
    exists i :: 0 <= i < |db.executions| && db.executions[i].id == id
  }

  function RejectOrder(db: Tables, order: nat): Tables {
    if order in db.orders && db.orders[order].status.PENDING?
    then db.(orders := db.orders[order := db.orders[order].(status := REJECTED)])
    else db
  }

  function FillOrder(db: Tables, order: nat): Tables {
    if order in db.orders then db.(orders := db.orders[order := db.orders[order].(status := FILLED)]) else db
  }

  function Cost(ex: Execution): real { Amount(ex.price, ex.quantity) + ex.fee }

  function Proceeds(ex: Execution): real { Amount(ex.price, ex.quantity) - ex.fee }

  /** krw_balance after a purchase or a sale, as NUMERIC(20,4) keeps it. */
  function Debited(balance: real, ex: Execution): real { RoundHalfUp(balance - Cost(ex)) }

  function Credited(balance: real, ex: Execution): real { RoundHalfUp(balance + Proceeds(ex)) }

  /** Acquisition cost per unit, fee included. */
  function UnitCost(ex: Execution): real
    requires ex.quantity != 0.0
  {
    RoundHalfUp(Cost(ex) / ex.quantity)
  }

  /** Quantity-weighted cost of a position after a purchase, as the column stores it. */
  function BlendedCost(held: real, avg: real, quantity: real, unitCost: real): real
    requires held + quantity != 0.0
  {
    RoundHalfUp((held * avg + quantity * unitCost) / (held + quantity))
  }

  /** The buy-side upsert of a position row: quantity added, average cost re-weighted. */
  function Upserted(positions: map<(string, string), Holding>, key: (string, string), quantity: real, unitCost: real)
    : Holding
    requires key in positions ==> positions[key].quantity + quantity != 0.0
  {
    if key !in positions then Holding(quantity, unitCost)
    else
      var p := positions[key];
      Holding(p.quantity + quantity, BlendedCost(p.quantity, p.avgBuyPrice, quantity, unitCost))
  }

  /** Foreign keys of the execution row. */
  predicate KeysExist(db: Tables, ex: Execution) {
    ex.order in db.orders && ex.account in db.accounts
  }

  function ApplyBuy(db: Tables, ex: Execution): (Tables, Outcome) {
    var key := (ex.account, ex.symbol);
    if ex.account !in db.accounts || db.accounts[ex.account] < Cost(ex) then (RejectOrder(db, ex.order), Rejected)
    else
      var cash := Debited(db.accounts[ex.account], ex);
      if !KeysExist(db, ex) || cash < 0.0 || ex.quantity <= 0.0 || Held(db, ex.account, ex.symbol) + ex.quantity <= 0.0
      then (db, Raised)
      else
        var row := Upserted(db.positions, key, ex.quantity, UnitCost(ex));
        (FillOrder(db.(executions := db.executions + [Stored(ex)],
                       accounts := db.accounts[ex.account := cash],
                       positions := db.positions[key := row]), ex.order), Applied)
  }

  function ApplySell(db: Tables, ex: Execution): (Tables, Outcome) {
    var key := (ex.account, ex.symbol);
    if key !in db.positions || db.positions[key].quantity < ex.quantity then (RejectOrder(db, ex.order), Rejected)
    else if !KeysExist(db, ex) || Credited(db.accounts[ex.account], ex) < 0.0 then (db, Raised)
    else
      var p := db.positions[key];
      (FillOrder(db.(executions := db.executions + [Stored(ex)],
                     accounts := db.accounts[ex.account := Credited(db.accounts[ex.account], ex)],
                     positions := db.positions[key := p.(quantity := p.quantity - ex.quantity)]), ex.order), Applied)
  }

  function Apply(db: Tables, ex: Execution): (Tables, Outcome) {
    if Recorded(db, ex.id) then (db, Duplicate)
    else if ex.side.BUY? then ApplyBuy(db, ex)
    else ApplySell(db, ex)
  }

  function Place(db: Tables, order: Order): Tables {
    db.(orders := db.orders[order.id := OrderRow(order, PENDING)],
        outbox := db.outbox + [OutboxRow(order, false)])
  }

  /** The connection: each method is one transaction over the tables. */
  class Database {
    var orders: map<nat, OrderRow>
    var outbox: seq<OutboxRow>
    var executions: seq<Execution>
    var accounts: map<string, real>
    var positions: map<(string, string), Holding>

    constructor (t: Tables)
      ensures Contents() == t
    {
      orders, outbox, executions, accounts, positions := t.orders, t.outbox, t.executions, t.accounts, t.positions;
    }

    function Contents(): Tables
      reads this
    {
      Tables(orders, outbox, executions, accounts, positions)
    }

    /** Both inserts commit together; uuid4 makes the id new. */
    method PlaceOrder(order: Order)
      requires order.id !in orders
      modifies this
      ensures Contents() == Place(old(Contents()), order)
    {
      orders := orders[order.id := OrderRow(order, PENDING)];
      outbox := outbox + [OutboxRow(order, false)];
    }

    method RecordExecution(ex: Execution)
      modifies this`executions
      ensures executions == old(executions) + [Stored(ex)]
    {
      executions := executions + [Stored(ex)];
    }

    method Reject(order: nat)
      modifies this`orders
      ensures Contents() == RejectOrder(old(Contents()), order)
    {
      if order in orders && orders[order].status.PENDING? {
        orders := orders[order := orders[order].(status := REJECTED)];
      }
    }

    method Rollback(t: Tables)
      modifies this
      ensures Contents() == t
    {
      orders, outbox, executions, accounts, positions := t.orders, t.outbox, t.executions, t.accounts, t.positions;
    }

    method ApplyExecution(ex: Execution) returns (outcome: Outcome)
      modifies this
      ensures (Contents(), outcome) == Apply(old(Contents()), ex)
    {
      if exists i :: 0 <= i < |executions| && executions[i].id == ex.id {
        return Duplicate;
      }
      if ex.side.BUY? {
        outcome := BuySide(ex);
      } else {
        outcome := SellSide(ex);
      }
      if outcome.Applied? {
        orders := orders[ex.order := orders[ex.order].(status := FILLED)];
      }
    }

    method BuySide(ex: Execution) returns (outcome: Outcome)
      modifies this
      ensures (if outcome.Applied? then FillOrder(Contents(), ex.order) else Contents(), outcome)
              == ApplyBuy(old(Contents()), ex)
      ensures outcome.Applied? ==> ex.order in orders
    {
      var begin := Contents();
      if ex.account !in accounts || accounts[ex.account] < Cost(ex) {
        Reject(ex.order);
        return Rejected;
      }
      if ex.order !in orders {
        return Raised;
      }
      RecordExecution(ex);
      accounts := accounts[ex.account := Debited(accounts[ex.account], ex)];
      if accounts[ex.account] < 0.0 || ex.quantity == 0.0 {
        Rollback(begin);
        return Raised;
      }
      var upserted := UpsertPosition((ex.account, ex.symbol), ex.quantity, UnitCost(ex));
      if !upserted {
        Rollback(begin);
        return Raised;
      }
      return Applied;
    }

    /** INSERT ... ON CONFLICT DO UPDATE; false when the proposed row, checked before the conflict clause, or the
        updated one breaks NOT NULL or the quantity check. */
    method UpsertPosition(key: (string, string), quantity: real, unitCost: real) returns (ok: bool)
      requires quantity != 0.0
      modifies this`positions
      ensures ok <==> quantity > 0.0 && Held(old(Contents()), key.0, key.1) + quantity > 0.0
      ensures ok ==> positions == old(positions)[key := Upserted(old(positions), key, quantity, unitCost)]
    {
      var row := Holding(quantity, unitCost);
      if row.quantity < 0.0 {
        return false;
      }
      if key in positions {
        var p := positions[key];
        if p.quantity + quantity == 0.0 {
          return false;
        }
        row := Holding(p.quantity + quantity, BlendedCost(p.quantity, p.avgBuyPrice, quantity, unitCost));
      }
      if row.quantity < 0.0 {
        return false;
      }
      positions := positions[key := row];
      return true;
    }

    method SellSide(ex: Execution) returns (outcome: Outcome)
      modifies this
      ensures (if outcome.Applied? then FillOrder(Contents(), ex.order) else Contents(), outcome)
              == ApplySell(old(Contents()), ex)
      ensures outcome.Applied? ==> ex.order in orders
    {
      var begin := Contents();
      var key := (ex.account, ex.symbol);
      if key !in positions || positions[key].quantity < ex.quantity {
        Reject(ex.order);
        return Rejected;
      }
      if ex.order !in orders || ex.account !in accounts {
        return Raised;
      }
      RecordExecution(ex);
      accounts := accounts[ex.account := Credited(accounts[ex.account], ex)];
      if accounts[ex.account] < 0.0 {
        Rollback(begin);
        return Raised;
      }
      positions := positions[key := positions[key].(quantity := positions[key].quantity - ex.quantity)];
      return Applied;
    }
  }

  // ----- What the books must say after any history of executions -----

  /** Money the recorded executions moved into an account, by the rows alone. */
  function CashFlow(rows: seq<Execution>, account: string): real {
    if rows == [] then 0.0
    else
      var ex := rows[|rows| - 1];
      CashFlow(rows[..|rows| - 1], account)
      + (if ex.account != account then 0.0 else if ex.side.BUY? then -Cost(ex) else Proceeds(ex))
  }

  function QuantityFlow(rows: seq<Execution>, account: string, symbol: string): real {
    if rows == [] then 0.0
    else
      var ex := rows[|rows| - 1];
      QuantityFlow(rows[..|rows| - 1], account, symbol)
      + (if ex.account != account || ex.symbol != symbol then 0.0
         else if ex.side.BUY? then ex.quantity else -ex.quantity)
  }

  /** Rounding budget: one balance rounding, one fee rounding and one price rounding per row. */
  function Slack(rows: seq<Execution>, account: string): real {
    if rows == [] then 0.0
    else
      var ex := rows[|rows| - 1];
      Slack(rows[..|rows| - 1], account)
      + (if ex.account != account then 0.0 else HALF_TICK * (2.0 + Magnitude(ex.quantity)))
  }

  ghost predicate NonNegative(db: Tables) {
    && (forall a :: a in db.accounts ==> db.accounts[a] >= 0.0)
    && (forall k :: k in db.positions ==> db.positions[k].quantity >= 0.0)
  }

  /** Executions are unique, FILLED means recorded, and every row belongs to a known order. */
  ghost predicate WellKept(db: Tables) {
    && (forall i, j :: 0 <= i < j < |db.executions| ==> db.executions[i].id != db.executions[j].id)
    && (forall i :: 0 <= i < |db.executions| ==>
          db.executions[i].id == Uuid5(db.executions[i].order) && db.executions[i].order in db.orders)
    && (forall o :: o in db.orders ==> (db.orders[o].status.FILLED? <==> Recorded(db, Uuid5(o))))
  }

  /** Balances equal the opening ones plus the recorded executions; quantities exactly, money within the rounding. */
  ghost predicate Conserved(start: Tables, db: Tables) {
    && db.accounts.Keys == start.accounts.Keys
    && (forall a :: a in db.accounts ==>
          -Slack(db.executions, a) <= db.accounts[a] - start.accounts[a] - CashFlow(db.executions, a)
          <= Slack(db.executions, a))
    && (forall a, s :: Held(db, a, s) == Held(start, a, s) + QuantityFlow(db.executions, a, s))
  }

  lemma ApplyKeepsNonNegative(db: Tables, ex: Execution)
    requires NonNegative(db)
    ensures NonNegative(Apply(db, ex).0)
  {
  }

  /** What an application does to the tables that carry no money. */
  lemma ApplyShape(db: Tables, ex: Execution)
    ensures var (db', outcome) := Apply(db, ex);
      if outcome.Applied?
      then !Recorded(db, ex.id) && ex.order in db.orders && ex.account in db.accounts
           && db'.executions == db.executions + [Stored(ex)]
           && db'.orders == db.orders[ex.order := db.orders[ex.order].(status := FILLED)]
      else db'.executions == db.executions
           && (db'.orders == db.orders || (outcome.Rejected? && ex.order in db.orders
               && db.orders[ex.order].status.PENDING?
               && db'.orders == db.orders[ex.order := db.orders[ex.order].(status := REJECTED)]))
  {
  }

  lemma ApplyKeepsWellKept(db: Tables, ex: Execution)
    requires WellKept(db) && ex.id == Uuid5(ex.order)
    ensures WellKept(Apply(db, ex).0)
  {
    ApplyShape(db, ex);
    var (db', outcome) := Apply(db, ex);
    KeptAfter(db, db', ex, outcome);
  }

  lemma KeptAfter(db: Tables, db': Tables, ex: Execution, outcome: Outcome)
    requires WellKept(db) && ex.id == Uuid5(ex.order)
    requires outcome.Applied? ==>
      !Recorded(db, ex.id) && ex.order in db.orders && db'.executions == db.executions + [Stored(ex)]
      && db'.orders == db.orders[ex.order := db.orders[ex.order].(status := FILLED)]
    requires !outcome.Applied? ==>
      db'.executions == db.executions
      && (db'.orders == db.orders || (ex.order in db.orders && db.orders[ex.order].status.PENDING?
          && db'.orders == db.orders[ex.order := db.orders[ex.order].(status := REJECTED)]))
    ensures WellKept(db')
  {
    var n := |db.executions|;
    assert outcome.Applied? ==> db'.executions[n].id == ex.id && db'.executions[n].order == ex.order;
    assert forall i :: 0 <= i < n ==> db'.executions[i] == db.executions[i];
    forall o | o in db'.orders
      ensures db'.orders[o].status.FILLED? <==> Recorded(db', Uuid5(o))
    {
      if Recorded(db, Uuid5(o)) {
        var i :| 0 <= i < n && db.executions[i].id == Uuid5(o);
        assert db'.executions[i].id == Uuid5(o);
      }
    }
  }

  lemma ScaledBound(price: real, rounded: real, quantity: real)
    requires price - HALF_TICK <= rounded <= price + HALF_TICK
    ensures -HALF_TICK * Magnitude(quantity) <= Amount(rounded, quantity) - Amount(price, quantity)
            <= HALF_TICK * Magnitude(quantity)
  {
    var e, m := rounded - price, Magnitude(quantity);
    ProductSign(HALF_TICK - e, m);
    ProductSign(HALF_TICK + e, m);
    assert e * quantity == rounded * quantity - price * quantity;
    assert e * m == e * quantity || e * m == -(e * quantity);
  }

  /** Stored money differs from executed money by at most the price and fee roundings. */
  lemma StoredMoney(ex: Execution)
    ensures -HALF_TICK * (1.0 + Magnitude(ex.quantity)) <= Cost(Stored(ex)) - Cost(ex)
            <= HALF_TICK * (1.0 + Magnitude(ex.quantity))
    ensures -HALF_TICK * (1.0 + Magnitude(ex.quantity)) <= Proceeds(Stored(ex)) - Proceeds(ex)
            <= HALF_TICK * (1.0 + Magnitude(ex.quantity))
  {
    hide RoundHalfUp, OnGrid, Magnitude, Amount;
    ScaledBound(ex.price, RoundHalfUp(ex.price), ex.quantity);
  }

  lemma FlowsAfter(rows: seq<Execution>, row: Execution, a: string, s: string)
    ensures CashFlow(rows + [row], a) == CashFlow(rows, a)
      + (if row.account != a then 0.0 else if row.side.BUY? then -Cost(row) else Proceeds(row))
    ensures Slack(rows + [row], a) == Slack(rows, a)
      + (if row.account != a then 0.0 else HALF_TICK * (2.0 + Magnitude(row.quantity)))
    ensures QuantityFlow(rows + [row], a, s) == QuantityFlow(rows, a, s)
      + (if row.account != a || row.symbol != s then 0.0 else if row.side.BUY? then row.quantity else -row.quantity)
  {
    assert (rows + [row])[..|rows|] == rows;
  }

  /** An applied execution moves exactly one balance and one quantity. */
  lemma AppliedMoney(db: Tables, ex: Execution)
    requires Apply(db, ex).1.Applied?
    ensures var db' := Apply(db, ex).0;
      db'.accounts == db.accounts[ex.account :=
        if ex.side.BUY? then Debited(db.accounts[ex.account], ex) else Credited(db.accounts[ex.account], ex)]
    ensures forall a, s ::
      Held(Apply(db, ex).0, a, s) == Held(db, a, s) + (
      if ex.account != a || ex.symbol != s then 0.0 else if ex.side.BUY? then ex.quantity else -ex.quantity)
  {
  }

  lemma ApplyConserves(start: Tables, db: Tables, ex: Execution)
    requires Conserved(start, db)
    ensures Conserved(start, Apply(db, ex).0)
  {
    hide RoundHalfUp, OnGrid, Magnitude, Cost, Proceeds;
    ApplyShape(db, ex);
    var (db', outcome) := Apply(db, ex);
    if outcome.Applied? {
      AppliedMoney(db, ex);
      StoredMoney(ex);
      forall a, s {
        FlowsAfter(db.executions, Stored(ex), a, s);
      }
    } else {
      assert db'.accounts == db.accounts && db'.positions == db.positions;
    }
  }

  /** The only way out of FILLED or into it. */
  lemma ApplyStatus(db: Tables, ex: Execution, o: nat)
    requires o in db.orders
    ensures o in Apply(db, ex).0.orders && Apply(db, ex).0.orders[o].order == db.orders[o].order
    ensures db.orders[o].status.FILLED? ==> Apply(db, ex).0.orders[o].status.FILLED?
    ensures Apply(db, ex).1 in {Applied, Rejected} && ex.order == o ==> !Apply(db, ex).0.orders[o].status.PENDING?
    ensures Apply(db, ex).0.orders[o].status.PENDING? ==> db.orders[o].status.PENDING?
  {
  }

  /** No id at or above n is in use. */
  ghost predicate FreshFrom(db: Tables, n: nat) {
    forall i: nat, m: nat :: 0 <= i < |db.executions| && db.executions[i].id == Uuid4(m) ==> m < n
  }

  lemma BuyOutcome(db: Tables, ex: Execution)
    requires ex.side.BUY? && !Recorded(db, ex.id) && KeysExist(db, ex)
    requires ex.quantity > 0.0 && Held(db, ex.account, ex.symbol) >= 0.0
    ensures Apply(db, ex).1.Applied? <==> db.accounts[ex.account] >= Cost(ex)
    ensures !Apply(db, ex).1.Applied? ==>
      Apply(db, ex).1.Rejected? && Apply(db, ex).0.accounts == db.accounts && Apply(db, ex).0.positions == db.positions
  {
    hide RoundHalfUp, BlendedCost, UnitCost;
  }

  lemma SellOutcome(db: Tables, ex: Execution)
    requires ex.side.SELL? && !Recorded(db, ex.id) && KeysExist(db, ex)
    requires 0.0 < ex.quantity <= Held(db, ex.account, ex.symbol)
    requires db.accounts[ex.account] + Proceeds(ex) >= 0.0
    ensures Apply(db, ex).1.Applied?
  {
    hide RoundHalfUp;
  }
}
