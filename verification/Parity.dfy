/** The backtest account and the ledger side by side: the same trades lead to the same money, holdings and costs. */
module Parity {
  import opened Money
  import opened Dict
  import opened Schemas
  import L = Ledger
  import B = BacktestAccount

  /** One position against its ledger row: none, or sold out, on one side is nothing held on the other. */
  predicate SameHolding(p: Option<B.Position>, db: L.Tables, account: string, symbol: string) {
    match p
    case None => L.Held(db, account, symbol) == 0.0
    case Some(q) => q.qty > 0.0 && (account, symbol) in db.positions
                    && db.positions[(account, symbol)] == L.Holding(q.qty, q.avg)
  }

  ghost predicate Agrees(a: B.State, db: L.Tables, account: string) {
    && account in db.accounts && db.accounts[account] == a.cash >= 0.0
    && forall s :: SameHolding(Get(a.positions, s), db, account, s)
  }

  /** The execution the ledger would get for a backtest trade; the sale tax is part of its fee. */
  function ExecutionOf(op: B.Op, account: string, serial: nat): Execution {
    Execution(Uuid4(serial), serial, account, op.symbol, if op.Buy? then BUY else SELL, op.price, op.qty,
              if op.Buy? then op.fee else op.fee + op.tax)
  }

  function WithOrder(db: L.Tables, op: B.Op, account: string, serial: nat): L.Tables {
    var o := Order(serial, account, op.symbol, if op.Buy? then BUY else SELL, MARKET, op.qty);
    db.(orders := db.orders[serial := L.OrderRow(o, L.PENDING)])
  }

  function Posted(db: L.Tables, op: B.Op, account: string, serial: nat): (L.Tables, L.Outcome) {
    L.Apply(WithOrder(db, op, account, serial), ExecutionOf(op, account, serial))
  }

  /** The order and its execution are one trade: same account, symbol, side and quantity, still PENDING. */
  lemma OrderMatchesExecution(db: L.Tables, op: B.Op, account: string, serial: nat)
    ensures var row, ex := WithOrder(db, op, account, serial).orders[serial], ExecutionOf(op, account, serial);
      && row.status.PENDING? && ex.order == row.order.id == serial && row.order.kind.MARKET?
      && row.order.account == ex.account == account && row.order.symbol == ex.symbol == op.symbol
      && row.order.side == ex.side == (if op.Buy? then BUY else SELL) && row.order.quantity == ex.quantity == op.qty
  {
  }

  function GoesThrough(a: B.State, op: B.Op): bool
    requires B.Submitted(op)
  {
    if op.Buy? then B.Bought(a, op) else B.Step(a, op).1.Some?
  }

  /** A sale worth less than its own fee and tax takes the account below zero. */
  predicate Overdraws(a: B.State, op: B.Op)
    requires B.Submitted(op)
  {
    op.Sell? && GoesThrough(a, op) && B.Step(a, op).0.cash < 0.0
  }

  lemma SameUnitCost(op: B.Op, account: string, serial: nat)
    requires op.Buy? && op.qty > 0.0
    ensures L.UnitCost(ExecutionOf(op, account, serial)) == B.UnitCost(Amount(op.price, op.qty) + op.fee, op.qty)
  {
    hide RoundHalfUp, Amount;
  }

  /** A row that was sold out costs what the new purchase costs: its old average has no weight. */
  lemma SoldOutAverage(held: real, avg: real, qty: real, unit: real)
    requires held == 0.0 && qty > 0.0 && OnGrid(unit)
    ensures L.BlendedCost(held, avg, qty, unit) == unit
  {
    BlendedIs(held, avg, qty, unit, held * avg + qty * unit, held + qty);
    WeightedUnit(held * avg + qty * unit, held + qty, unit);
  }

  lemma BlendedIs(held: real, avg: real, qty: real, unit: real, total: real, after: real)
    requires total == held * avg + qty * unit && after == held + qty && after != 0.0
    ensures L.BlendedCost(held, avg, qty, unit) == RoundHalfUp(total / after)
  {
    hide RoundHalfUp;
  }

  lemma WeightedUnit(total: real, after: real, unit: real)
    requires after > 0.0 && total == unit * after && OnGrid(unit)
    ensures RoundHalfUp(total / after) == unit
  {
    hide RoundHalfUp, OnGrid;
    QuotientBound(total, after, unit);
  }

  lemma SameAverage(held: real, avg: real, qty: real, unit: real)
    requires held > 0.0 && qty > 0.0
    ensures L.BlendedCost(held, avg, qty, unit) == B.BlendedAverage(held, avg, qty, unit)
  {
    assert Amount(avg, held) == held * avg && Amount(unit, qty) == qty * unit;
  }

  /** The row a purchase leaves in the ledger is the position it leaves in the account. */
  lemma SamePurchase(p: Option<B.Position>, db: L.Tables, account: string, op: B.Op, serial: nat, position: B.Position)
    requires op.Buy? && op.qty > 0.0 && SameHolding(p, db, account, op.symbol)
    requires position.qty == (match p case None => 0.0 case Some(q) => q.qty) + op.qty
    requires var unit := B.UnitCost(Amount(op.price, op.qty) + op.fee, op.qty);
      position.avg == match p case None => unit case Some(q) => B.BlendedAverage(q.qty, q.avg, op.qty, unit)
    ensures var key := (account, op.symbol); var ex := ExecutionOf(op, account, serial);
      L.Upserted(db.positions, key, op.qty, L.UnitCost(ex)) == L.Holding(position.qty, position.avg)
  {
    hide RoundHalfUp, Amount, L.BlendedCost, B.BlendedAverage, L.UnitCost, B.UnitCost, OnGrid;
    SameUnitCost(op, account, serial);
    var unit := B.UnitCost(Amount(op.price, op.qty) + op.fee, op.qty);
    UnitOnGrid(Amount(op.price, op.qty) + op.fee, op.qty);
    match p
    case None =>
      if (account, op.symbol) in db.positions {
        var row := db.positions[(account, op.symbol)];
        SoldOutAverage(row.quantity, row.avgBuyPrice, op.qty, unit);
      }
    case Some(q) => SameAverage(q.qty, q.avg, op.qty, unit);
  }

  lemma UnitOnGrid(cost: real, qty: real)
    requires qty > 0.0
    ensures OnGrid(B.UnitCost(cost, qty))
  {
  }

  /** What an applied purchase does to the account's rows. */
  lemma LedgerBuys(db: L.Tables, op: B.Op, account: string, serial: nat)
    requires op.Buy? && op.qty > 0.0 && account in db.accounts && L.FreshFrom(db, serial)
    requires L.Held(db, account, op.symbol) >= 0.0
    ensures var (db', outcome) := Posted(db, op, account, serial); var ex := ExecutionOf(op, account, serial);
      var key := (account, op.symbol);
      && (outcome.Applied? <==> db.accounts[account] >= L.Cost(ex))
      && (if outcome.Applied?
          then db'.accounts == db.accounts[account := L.Debited(db.accounts[account], ex)]
               && db'.positions == db.positions[key := L.Upserted(db.positions, key, op.qty, L.UnitCost(ex))]
          else db'.accounts == db.accounts && db'.positions == db.positions)
  {
    hide RoundHalfUp, Amount, L.UnitCost, L.BlendedCost, OnGrid;
    L.BuyOutcome(WithOrder(db, op, account, serial), ExecutionOf(op, account, serial));
  }

  /** What an applied sale does to the account's rows. */
  lemma LedgerSells(db: L.Tables, op: B.Op, account: string, serial: nat)
    requires op.Sell? && op.qty > 0.0 && account in db.accounts && db.accounts[account] >= 0.0
    requires L.FreshFrom(db, serial)
    ensures var (db', outcome) := Posted(db, op, account, serial); var ex := ExecutionOf(op, account, serial);
      var key := (account, op.symbol);
      && (outcome.Applied? <==>
            key in db.positions && db.positions[key].quantity >= op.qty && L.Credited(db.accounts[account], ex) >= 0.0)
      && (if outcome.Applied?
          then db'.accounts == db.accounts[account := L.Credited(db.accounts[account], ex)]
               && db'.positions == db.positions[key := L.Holding(db.positions[key].quantity - op.qty,
                                                                 db.positions[key].avgBuyPrice)]
          else db'.accounts == db.accounts && db'.positions == db.positions)
  {
    hide RoundHalfUp, Amount, OnGrid;
  }

  lemma StaysFresh(db: L.Tables, op: B.Op, account: string, serial: nat)
    requires L.FreshFrom(db, serial)
    ensures L.FreshFrom(Posted(db, op, account, serial).0, serial + 1)
  {
    hide L.Apply;
    L.ApplyShape(WithOrder(db, op, account, serial), ExecutionOf(op, account, serial));
  }

  lemma BuyAgrees(a: B.State, db: L.Tables, account: string, op: B.Op, serial: nat)
    requires Agrees(a, db, account) && B.Valid(a) && B.Submitted(op) && op.Buy? && L.FreshFrom(db, serial)
    ensures var (db', outcome) := Posted(db, op, account, serial);
      Agrees(B.Step(a, op).0, db', account) && (outcome.Applied? <==> GoesThrough(a, op))
  {
    hide RoundHalfUp, Amount, OnGrid, Posted, L.Upserted, L.UnitCost, B.UnitCost, B.BlendedAverage, B.AfterBuy, B.Valid;
    assert SameHolding(Get(a.positions, op.symbol), db, account, op.symbol);
    LedgerBuys(db, op, account, serial);
    B.BoughtIff(a, op);
    if B.Bought(a, op) {
      var spent, position := B.BuyShape(a, op.symbol, op.price, op.qty, op.fee, op.ts);
      SamePurchase(Get(a.positions, op.symbol), db, account, op, serial, position);
      SameCash(a, op, account, serial);
    } else {
      B.Refused(a, op);
    }
  }

  lemma SameCash(a: B.State, op: B.Op, account: string, serial: nat)
    requires op.Buy? && B.Submitted(op) && B.Bought(a, op) && a.cash >= 0.0
    ensures B.Step(a, op).0.cash == L.Debited(a.cash, ExecutionOf(op, account, serial)) >= 0.0
  {
    hide RoundHalfUp, Amount, OnGrid, B.UnitCost, B.BlendedAverage;
  }

  lemma SellAgrees(a: B.State, db: L.Tables, account: string, op: B.Op, serial: nat)
    requires Agrees(a, db, account) && B.Valid(a) && B.Submitted(op) && op.Sell? && L.FreshFrom(db, serial)
    ensures var (db', outcome) := Posted(db, op, account, serial);
      if Overdraws(a, op) then !outcome.Applied? && !Agrees(B.Step(a, op).0, db', account)
      else Agrees(B.Step(a, op).0, db', account) && (outcome.Applied? <==> GoesThrough(a, op))
  {
    hide RoundHalfUp, Amount, OnGrid, Posted, B.FeeShare, B.AfterSell, L.Credited;
    LedgerSells(db, op, account, serial);
    assert SameHolding(Get(a.positions, op.symbol), db, account, op.symbol);
    if GoesThrough(a, op) {
      var earned, p, left := B.SellShape(a, op.symbol, op.price, op.qty, op.fee, op.tax, op.ts);
      DistinctRemove(a.positions, op.symbol);
      SameProceeds(a, op, account, serial);
    } else {
      B.Refused(a, op);
      SaleRefused(a, op);
    }
  }

  lemma SameProceeds(a: B.State, op: B.Op, account: string, serial: nat)
    requires op.Sell? && B.Submitted(op) && GoesThrough(a, op)
    ensures B.Step(a, op).0.cash == L.Credited(a.cash, ExecutionOf(op, account, serial))
  {
    hide RoundHalfUp, Amount, OnGrid, B.Close, B.Reduced;
  }

  lemma SaleRefused(a: B.State, op: B.Op)
    requires op.Sell? && B.Submitted(op) && !GoesThrough(a, op)
    ensures Get(a.positions, op.symbol).Some? ==> Get(a.positions, op.symbol).value.qty < op.qty
  {
    hide RoundHalfUp, Amount, OnGrid, B.Close, B.Reduced;
  }

  // ----- Any sequence of trades -----

  function PostedAll(db: L.Tables, ops: seq<B.Op>, n: nat, account: string, serial: nat): L.Tables
    requires n <= |ops|
  {
    if n == 0 then db else Posted(PostedAll(db, ops, n - 1, account, serial), ops[n - 1], account, serial + n).0
  }

  /** Cash, quantities and average costs agree after each of the first n trades. */
  ghost predicate AgreesThroughout(a: B.State, db: L.Tables, account: string, ops: seq<B.Op>, n: nat, serial: nat)
    requires n <= |ops| && B.AllSubmitted(ops)
  {
    Agrees(B.Play(a, ops, n).0, PostedAll(db, ops, n, account, serial), account)
    && (n > 0 ==> AgreesThroughout(a, db, account, ops, n - 1, serial))
  }

  predicate NeverOverdraws(a: B.State, ops: seq<B.Op>, n: nat)
    requires n <= |ops| && B.AllSubmitted(ops)
  {
    n > 0 ==> NeverOverdraws(a, ops, n - 1) && !Overdraws(B.Play(a, ops, n - 1).0, ops[n - 1])
  }

  /** The backtest refines the ledger exactly as long as no sale overdraws the account: from agreeing states the two
      agree after every one of the trades if and only if none does. Until then a trade goes through in one exactly when
      it is applied in the other; an overdrawing sale goes through in the backtest and is not applied. */
  lemma {:induction false} BacktestMatchesLedger(a: B.State, db: L.Tables, account: string, ops: seq<B.Op>, n: nat,
                                                 serial: nat)
    requires Agrees(a, db, account) && B.Valid(a) && B.AllSubmitted(ops) && n <= |ops| && L.FreshFrom(db, serial + 1)
    ensures AgreesThroughout(a, db, account, ops, n, serial) <==> NeverOverdraws(a, ops, n)
    ensures n < |ops| && NeverOverdraws(a, ops, n) ==>
      var applied := Posted(PostedAll(db, ops, n, account, serial), ops[n], account, serial + n + 1).1.Applied?;
      var b := B.Play(a, ops, n).0;
      if Overdraws(b, ops[n]) then !applied else applied <==> GoesThrough(b, ops[n])
    ensures B.Valid(B.Play(a, ops, n).0) && L.FreshFrom(PostedAll(db, ops, n, account, serial), serial + n + 1)
  {
    hide Agrees, Posted, B.Step, B.Valid, B.Submitted, GoesThrough, Overdraws, L.FreshFrom;
    if n > 0 {
      BacktestMatchesLedger(a, db, account, ops, n - 1, serial);
      var b, t := B.Play(a, ops, n - 1).0, PostedAll(db, ops, n - 1, account, serial);
      B.StepKeepsValid(b, ops[n - 1]);
      StaysFresh(t, ops[n - 1], account, serial + n);
      if NeverOverdraws(a, ops, n - 1) {
        OneAgrees(b, t, account, ops[n - 1], serial + n);
      }
    }
    if n < |ops| && NeverOverdraws(a, ops, n) {
      OneAgrees(B.Play(a, ops, n).0, PostedAll(db, ops, n, account, serial), account, ops[n], serial + n + 1);
    }
  }

  /** One trade on agreeing states: unless it is a sale that overdraws, the outcomes and the new states agree again. */
  lemma OneAgrees(a: B.State, db: L.Tables, account: string, op: B.Op, serial: nat)
    requires Agrees(a, db, account) && B.Valid(a) && B.Submitted(op) && L.FreshFrom(db, serial)
    ensures var (db', outcome) := Posted(db, op, account, serial);
      if Overdraws(a, op) then !outcome.Applied? && !Agrees(B.Step(a, op).0, db', account)
      else Agrees(B.Step(a, op).0, db', account) && (outcome.Applied? <==> GoesThrough(a, op))
  {
    hide Agrees, Posted, B.Step, B.Valid, GoesThrough, L.FreshFrom;
    if op.Buy? {
      BuyAgrees(a, db, account, op, serial);
    } else {
      SellAgrees(a, db, account, op, serial);
    }
  }

  /** A sale for less than its fee: the backtest goes below zero, the ledger raises and keeps its rows. */
  lemma OverdrawnSale()
    ensures var a := B.State(0.0, [("x", B.Position(1.0, 1.0, 0.0, 1.0, 0.0))]);
      var op := B.Sell("x", 1.0, 1.0, 2.0, 0.0, 0.0);
      var db := L.Tables(map[], [], [], map["account" := 0.0], map[("account", "x") := L.Holding(1.0, 1.0)]);
      && Agrees(a, db, "account") && B.Valid(a) && B.Submitted(op) && Overdraws(a, op)
      && Posted(db, op, "account", 0).1.Raised?
  {
    var a := B.State(0.0, [("x", B.Position(1.0, 1.0, 0.0, 1.0, 0.0))]);
    var op := B.Sell("x", 1.0, 1.0, 2.0, 0.0, 0.0);
    hide B.FeeShare, B.ReturnPct;
    assert OnGrid(2.0) && OnGrid(0.0) && OnGrid(-1.0);
    assert Get(a.positions, "x") == Some(a.positions[0].1);
    forall s | s != "x"
      ensures Get(a.positions, s) == None
    {
      assert Get(a.positions[1..], s) == None;
    }
  }
}
