/** Paper fills of Korean shares: an order row and its execution in one transaction, sale tax included in the fee. */
module PaperLedger {
  import opened Money
  import opened Schemas
  import opened Ledger

  const SELL_RATE := FEE_RATE + SELL_TAX_RATE

  datatype Trade = Trade(symbol: string, qty: int, price: real)

  function Worth(t: Trade): real { Amount(t.price, t.qty as real) }

  function KrFee(side: Side, t: Trade): real {
    RoundHalfEven(Worth(t) * if side.SELL? then SELL_RATE else FEE_RATE)
  }

  /** For any price and quantity: the fee rate on a purchase, fee and tax rate on a sale, to half a tick. */
  lemma FeeToHalfTick(side: Side, t: Trade)
    ensures var exact := t.price * t.qty as real * (if side == SELL then FEE_RATE + SELL_TAX_RATE else FEE_RATE);
      exact - HALF_TICK <= KrFee(side, t) <= exact + HALF_TICK && OnGrid(KrFee(side, t))
  {
    hide RoundHalfEven, OnGrid;
  }

  function FillOf(account: string, side: Side, t: Trade, serial: nat): Execution {
    Execution(Uuid4(serial), serial, account, t.symbol, side, t.price, t.qty as real, KrFee(side, t))
  }

  function WithOrder(db: Tables, account: string, side: Side, t: Trade, serial: nat): Tables {
    db.(orders := db.orders[serial := OrderRow(Order(serial, account, t.symbol, side, MARKET, t.qty as real), PENDING)])
  }

  /** simulate_fill as one step; serial stands for the fresh random ids. */
  function Simulated(db: Tables, account: string, side: Side, t: Trade, serial: nat): (Tables, Outcome) {
    Apply(WithOrder(db, account, side, t, serial), FillOf(account, side, t, serial))
  }

  method SimulateFill(db: Database, account: string, side: Side, t: Trade, serial: nat) returns (outcome: Outcome)
    modifies db
    ensures (db.Contents(), outcome) == Simulated(old(db.Contents()), account, side, t, serial)
  {
    hide Apply, KrFee;
    db.orders := db.orders[serial := OrderRow(Order(serial, account, t.symbol, side, MARKET, t.qty as real), PENDING)];
    outcome := db.ApplyExecution(FillOf(account, side, t, serial));
  }

  /** Whole shares at a whole price: every amount is a whole number of ticks, so no rounding ever happens. */
  predicate Whole(t: Trade) {
    t.qty > 0 && t.price > 0.0 && t.price.Floor as real == t.price
  }

  lemma WholeWorth(t: Trade)
    requires Whole(t)
    ensures Worth(t) > 0.0 && Worth(t).Floor as real == Worth(t)
  {
    var p, q := t.price.Floor, t.qty;
    Product(p, q);
    assert Worth(t) == p as real * q as real;
    WholeNumber(Worth(t), p * q);
    StrictProduct(t.price, t.qty as real);
  }

  lemma WholeNumber(x: real, n: int)
    requires x == n as real
    ensures x.Floor == n
  {
  }

  lemma {:induction false} Product(p: int, q: int)
    requires q >= 0
    ensures p as real * q as real == (p * q) as real
    decreases q
  {
    if q > 0 {
      Product(p, q - 1);
      assert q as real == (q - 1) as real + 1.0;
      assert p * q == p * (q - 1) + p;
      assert p as real * q as real == p as real * (q - 1) as real + p as real;
    }
  }

  lemma GridFees(worth: real)
    requires worth.Floor as real == worth
    ensures OnGrid(worth) && OnGrid(worth * FEE_RATE) && OnGrid(worth * SELL_RATE)
  {
    var n := worth.Floor;
    assert worth == Ticks(10000 * n) && worth * FEE_RATE == Ticks(5 * n) && worth * SELL_RATE == Ticks(25 * n);
  }

  lemma WholeFees(t: Trade)
    requires Whole(t)
    ensures KrFee(BUY, t) == Worth(t) * FEE_RATE && KrFee(SELL, t) == Worth(t) * SELL_RATE
    ensures OnGrid(Worth(t) * (1.0 + FEE_RATE)) && OnGrid(Worth(t) * (1.0 - SELL_RATE))
  {
    hide RoundHalfEven, Worth;
    WholeWorth(t);
    GridFees(Worth(t));
    GridSum(Worth(t), Worth(t) * FEE_RATE);
    GridSum(Worth(t), Worth(t) * SELL_RATE);
  }

  /** A whole sale of held shares is applied and credits exactly its worth less fee and tax. */
  lemma SaleFills(db: Tables, account: string, t: Trade, serial: nat)
    requires Whole(t) && FreshFrom(db, serial) && account in db.accounts
    requires db.accounts[account] >= 0.0 && OnGrid(db.accounts[account])
    requires t.qty as real <= Held(db, account, t.symbol)
    ensures var (db', outcome) := Simulated(db, account, SELL, t, serial);
      && outcome.Applied? && FreshFrom(db', serial + 1) && account in db'.accounts
      && db'.accounts[account] == db.accounts[account] + Worth(t) * (1.0 - SELL_RATE) && OnGrid(db'.accounts[account])
      && forall s :: Held(db', account, s) == Held(db, account, s) - if s == t.symbol then t.qty as real else 0.0
  {
    hide Apply, KrFee, RoundHalfUp, OnGrid, Worth;
    var db1, ex := WithOrder(db, account, SELL, t, serial), FillOf(account, SELL, t, serial);
    WholeFees(t);
    WholeWorth(t);
    ExactMoney(db, account, SELL, t, serial);
    SellOutcome(db1, ex);
    AppliedMoney(db1, ex);
    ApplyShape(db1, ex);
  }

  /** A whole purchase that the balance covers is applied and debits exactly its worth and fee. */
  lemma PurchaseFills(db: Tables, account: string, t: Trade, serial: nat)
    requires Whole(t) && FreshFrom(db, serial) && account in db.accounts && OnGrid(db.accounts[account])
    requires Held(db, account, t.symbol) >= 0.0 && Worth(t) * (1.0 + FEE_RATE) <= db.accounts[account]
    ensures var (db', outcome) := Simulated(db, account, BUY, t, serial);
      && outcome.Applied? && FreshFrom(db', serial + 1) && account in db'.accounts
      && db'.accounts[account] == db.accounts[account] - Worth(t) * (1.0 + FEE_RATE) && OnGrid(db'.accounts[account])
      && forall s :: Held(db', account, s) == Held(db, account, s) + if s == t.symbol then t.qty as real else 0.0
  {
    hide Apply, KrFee, RoundHalfUp, OnGrid, Worth;
    var db1, ex := WithOrder(db, account, BUY, t, serial), FillOf(account, BUY, t, serial);
    WholeFees(t);
    ExactMoney(db, account, BUY, t, serial);
    BuyOutcome(db1, ex);
    AppliedMoney(db1, ex);
    ApplyShape(db1, ex);
  }

  /** With whole amounts and a balance on the grid the ledger's rounding is the identity. */
  lemma ExactMoney(db: Tables, account: string, side: Side, t: Trade, serial: nat)
    requires Whole(t) && account in db.accounts && OnGrid(db.accounts[account])
    ensures var ex := FillOf(account, side, t, serial); var cash := db.accounts[account];
      && Cost(ex) == Worth(t) + KrFee(side, t) && Proceeds(ex) == Worth(t) - KrFee(side, t)
      && if side.BUY?
         then Cost(ex) == Worth(t) * (1.0 + FEE_RATE)
              && Debited(cash, ex) == cash - Cost(ex) && OnGrid(Debited(cash, ex))
         else Proceeds(ex) == Worth(t) * (1.0 - SELL_RATE)
              && Credited(cash, ex) == cash + Proceeds(ex) && OnGrid(Credited(cash, ex))
  {
    hide RoundHalfUp, KrFee, OnGrid, Amount;
    WholeFees(t);
    GridSum(db.accounts[account], Worth(t) * (1.0 + FEE_RATE));
    GridSum(db.accounts[account], Worth(t) * (1.0 - SELL_RATE));
  }
}
