/** The backtest account: cash, positions with fee-inclusive average cost, and realised trades. */
module BacktestAccount {
  import opened Money
  import opened Dict

  datatype Position = Position(qty: real, avg: real, entryTs: real, entryPrice: real, entryFee: real)
  datatype ClosedTrade = ClosedTrade(
    symbol: string, qty: real, entryPrice: real, exitPrice: real, buyFee: real, sellFee: real,
    pnl: real, returnPct: real, entryTs: real, exitTs: real, sellTax: real)

  datatype State = State(cash: real, positions: Dict<string, Position>)

  /** Average cost after adding a purchase, as the four-decimal column keeps it. */
  function BlendedAverage(held: real, avg: real, qty: real, unitCost: real): real
    requires held + qty > 0.0
  {
    RoundHalfUp((Amount(avg, held) + Amount(unitCost, qty)) / (held + qty))
  }

  function UnitCost(cost: real, qty: real): real
    requires qty > 0.0
  {
    RoundHalfUp(cost / qty)
  }

  /** The part of the opening fee charged to a partial sale. */
  function FeeShare(entryFee: real, qty: real, held: real): real
    requires held > 0.0
  {
    RoundHalfUp(entryFee * qty / held)
  }

  function Add(p: Position, qty: real, unitCost: real): Position
    requires p.qty > 0.0 && qty > 0.0
  {
    p.(qty := p.qty + qty, avg := BlendedAverage(p.qty, p.avg, qty, unitCost))
  }

  function AfterBuy(a: State, symbol: string, price: real, qty: real, fee: real, ts: real): (State, bool)
    requires qty > 0.0
  {
    var cost := Amount(price, qty) + fee;
    if a.cash < cost then (a, false)
    else
      var unit := UnitCost(cost, qty);
      var position := match Get(a.positions, symbol)
        case None => Position(qty, unit, ts, price, fee)
        case Some(p) => if p.qty <= 0.0 then Position(qty, unit, ts, price, fee) else Add(p, qty, unit);
      (State(RoundHalfUp(a.cash - cost), Set(a.positions, symbol, position)), true)
  }

  function ReturnPct(pnl: real, basis: real): real {
    if basis > 0.0 then pnl / basis else 0.0
  }

  function Close(p: Position, symbol: string, price: real, qty: real, fee: real, tax: real, ts: real): ClosedTrade
    requires p.qty > 0.0
  {
    var proceeds := Amount(price, qty) - fee - tax;
    var basis := Amount(p.avg, qty);
    ClosedTrade(symbol, qty, p.entryPrice, price, FeeShare(p.entryFee, qty, p.qty), fee, proceeds - basis,
                ReturnPct(proceeds - basis, basis), p.entryTs, ts, tax)
  }

  /** The entry after a sale: dropped once nothing is left. */
  function Reduced(positions: Dict<string, Position>, symbol: string, left: Position): Dict<string, Position> {
    if left.qty <= 0.0 then Remove(positions, symbol) else Set(positions, symbol, left)
  }

  function AfterSell(a: State, symbol: string, price: real, qty: real, fee: real, tax: real, ts: real)
    : (State, Option<ClosedTrade>)
    requires qty > 0.0
  {
    match Get(a.positions, symbol)
    case None => (a, None)
    case Some(p) =>
      if p.qty < qty then (a, None)
      else
        var trade := Close(p, symbol, price, qty, fee, tax, ts);
        var left := p.(qty := p.qty - qty, entryFee := p.entryFee - trade.buyFee);
        (State(RoundHalfUp(a.cash + (Amount(price, qty) - fee - tax)),
               Reduced(a.positions, symbol, left)),
         Some(trade))
  }

  function PriceFor(last: map<string, real>): (string, Position) -> real {
    (s: string, p: Position) => if s in last then Amount(last[s], p.qty) else 0.0
  }

  /** Cash plus holdings at the latest price; symbols without a price do not count. */
  function EquityOf(a: State, last: map<string, real>): real {
    a.cash + Sum(a.positions, PriceFor(last))
  }

  class BacktestAccount {
    const initialCash: real
    var cash: real
    var positions: Dict<string, Position>

    constructor (initial: real)
      ensures initialCash == cash == initial && positions == []
    {
      initialCash, cash, positions := initial, initial, [];
    }

    function Value(): State
      reads this
    {
      State(cash, positions)
    }

    method ApplyBuy(symbol: string, price: real, qty: real, fee: real, ts: real) returns (ok: bool)
      requires qty > 0.0
      modifies this
      ensures (Value(), ok) == AfterBuy(old(Value()), symbol, price, qty, fee, ts)
    {
      hide RoundHalfUp, UnitCost, BlendedAverage, Amount;
      var cost := Amount(price, qty) + fee;
      if cash < cost {
        return false;
      }
      cash := RoundHalfUp(cash - cost);
      var unitCost := UnitCost(cost, qty);
      var p := Get(positions, symbol);
      if p.None? || p.value.qty <= 0.0 {
        positions := Set(positions, symbol, Position(qty, unitCost, ts, price, fee));
      } else {
        positions := Set(positions, symbol, Add(p.value, qty, unitCost));
      }
      return true;
    }

    method ApplySell(symbol: string, price: real, qty: real, fee: real, tax: real, ts: real)
      returns (trade: Option<ClosedTrade>)
      requires qty > 0.0
      modifies this
      ensures (Value(), trade) == AfterSell(old(Value()), symbol, price, qty, fee, tax, ts)
    {
      hide RoundHalfUp, Close, Amount;
      var held := Get(positions, symbol);
      if held.None? || held.value.qty < qty {
        return None;
      }
      var p := held.value;
      var proceeds := Amount(price, qty) - fee - tax;
      cash := RoundHalfUp(cash + proceeds);
      var closed := Close(p, symbol, price, qty, fee, tax, ts);
      p := p.(qty := p.qty - qty, entryFee := p.entryFee - closed.buyFee);
      if p.qty <= 0.0 {
        positions := Remove(positions, symbol);
      } else {
        positions := Set(positions, symbol, p);
      }
      return Some(closed);
    }

    function Equity(last: map<string, real>): real
      reads this
    {
      EquityOf(Value(), last)
    }
  }

  // ----- One trade -----

  predicate Open(p: Position) {
    p.qty > 0.0 && OnGrid(p.entryFee)
  }

  /** Keys are unique and only open positions are kept. */
  ghost predicate Valid(a: State) {
    Distinct(a.positions) && forall k :: Get(a.positions, k).Some? ==> Open(Get(a.positions, k).value)
  }

  function Held(a: State, symbol: string): real {
    match Get(a.positions, symbol) case None => 0.0 case Some(p) => p.qty
  }

  /** What a purchase that goes through leaves behind: cash, and one entry with the larger quantity. */
  lemma BuyShape(a: State, symbol: string, price: real, qty: real, fee: real, ts: real)
    returns (spent: real, position: Position)
    requires qty > 0.0 && Valid(a)
    requires AfterBuy(a, symbol, price, qty, fee, ts).1
    ensures spent == Amount(price, qty)
    ensures var b := AfterBuy(a, symbol, price, qty, fee, ts).0;
      && b.positions == Set(a.positions, symbol, position)
      && -HALF_TICK <= b.cash - a.cash + spent + fee <= HALF_TICK
    ensures position.qty == Held(a, symbol) + qty
    ensures position.entryFee == match Get(a.positions, symbol) case None => fee case Some(p) => p.entryFee
    ensures var unit := UnitCost(spent + fee, qty);
      position.avg == match Get(a.positions, symbol)
                      case None => unit
                      case Some(p) => BlendedAverage(p.qty, p.avg, qty, unit)
  {
    hide UnitCost, BlendedAverage, RoundHalfUp, Amount;
    spent := Amount(price, qty);
    var unit := UnitCost(spent + fee, qty);
    position := match Get(a.positions, symbol)
      case None => Position(qty, unit, ts, price, fee)
      case Some(p) => Add(p, qty, unit);
  }

  lemma ClosedFields(p: Position, symbol: string, price: real, qty: real, fee: real, tax: real, ts: real)
    requires p.qty > 0.0
    ensures var trade := Close(p, symbol, price, qty, fee, tax, ts);
      && trade.symbol == symbol && trade.buyFee == FeeShare(p.entryFee, qty, p.qty)
      && trade.pnl == Amount(price, qty) - fee - tax - Amount(p.avg, qty)
  {
    hide FeeShare, Amount, ReturnPct;
  }

  /** What a sale that goes through leaves behind. */
  lemma SellShape(a: State, symbol: string, price: real, qty: real, fee: real, tax: real, ts: real)
    returns (earned: real, p: Position, left: Position)
    requires qty > 0.0
    requires AfterSell(a, symbol, price, qty, fee, tax, ts).1.Some?
    ensures earned == Amount(price, qty)
    ensures Get(a.positions, symbol) == Some(p) && p.qty >= qty
    ensures left.qty == p.qty - qty && left.avg == p.avg
    ensures var (b, trade) := AfterSell(a, symbol, price, qty, fee, tax, ts);
      && b.positions == Reduced(a.positions, symbol, left)
      && -HALF_TICK <= b.cash - a.cash - earned + fee + tax <= HALF_TICK
      && trade.value.symbol == symbol
      && trade.value.buyFee == FeeShare(p.entryFee, qty, p.qty) == p.entryFee - left.entryFee
      && trade.value.pnl == earned - fee - tax - Amount(p.avg, qty)
  {
    hide FeeShare, RoundHalfUp, Amount, Close, OnGrid, Reduced;
    earned := Amount(price, qty);
    p := Get(a.positions, symbol).value;
    var trade := Close(p, symbol, price, qty, fee, tax, ts);
    ClosedFields(p, symbol, price, qty, fee, tax, ts);
    left := p.(qty := p.qty - qty, entryFee := p.entryFee - trade.buyFee);
  }

  /** Replacing or dropping one entry changes a weighted total by that entry alone. */
  lemma Rebooked(a: State, symbol: string, left: Position, weight: (string, Position) -> real)
    ensures Sum(Reduced(a.positions, symbol, left), weight)
         == Sum(a.positions, weight) - WeightAt(a.positions, symbol, weight)
            + (if left.qty <= 0.0 then 0.0 else weight(symbol, left))
  {
    if left.qty <= 0.0 {
      SumRemove(a.positions, symbol, weight);
    } else {
      SumSet(a.positions, symbol, left, weight);
    }
  }

  lemma MarkOf(a: State, symbol: string, last: map<string, real>)
    requires symbol in last
    ensures WeightAt(a.positions, symbol, PriceFor(last)) == Amount(last[symbol], Held(a, symbol))
  {
    Distribute(last[symbol], 0.0, 0.0);
  }

  lemma ValueAtMark(last: map<string, real>, symbol: string, p: Position)
    ensures PriceFor(last)(symbol, p) == if symbol in last then last[symbol] * p.qty else 0.0
  {
    assert PriceFor(last)(symbol, p) == if symbol in last then Amount(last[symbol], p.qty) else 0.0;
  }

  /** Equity is the cash and, for every position with a known price, its quantity at that price. */
  lemma EquityAddsUp(a: State, symbol: string, p: Position, last: map<string, real>)
    ensures EquityOf(a.(positions := []), last) == a.cash
    ensures EquityOf(a.(positions := a.positions + [(symbol, p)]), last)
         == EquityOf(a, last) + if symbol in last then last[symbol] * p.qty else 0.0
  {
    SumAppend(a.positions, symbol, p, PriceFor(last));
    ValueAtMark(last, symbol, p);
  }

  /** A purchase at the mark costs exactly its fee, up to one rounding of cash. */
  lemma BuyAtMark(a: State, symbol: string, price: real, qty: real, fee: real, ts: real, last: map<string, real>)
    requires Valid(a) && qty > 0.0 && symbol in last && last[symbol] == price
    requires AfterBuy(a, symbol, price, qty, fee, ts).1
    ensures var b := AfterBuy(a, symbol, price, qty, fee, ts).0;
      -HALF_TICK <= EquityOf(b, last) - EquityOf(a, last) + fee <= HALF_TICK
  {
    hide AfterBuy, UnitCost, BlendedAverage, Valid, Amount;
    var b := AfterBuy(a, symbol, price, qty, fee, ts).0;
    var spent, position := BuyShape(a, symbol, price, qty, fee, ts);
    SumSet(a.positions, symbol, position, PriceFor(last));
    MarkOf(a, symbol, last);
    Distribute(price, Held(a, symbol), qty);
  }

  /** A sale at the mark costs exactly its fee and tax, up to one rounding of cash. */
  lemma SellAtMark(a: State, symbol: string, price: real, qty: real, fee: real, tax: real, ts: real,
                   last: map<string, real>)
    requires qty > 0.0 && symbol in last && last[symbol] == price
    requires AfterSell(a, symbol, price, qty, fee, tax, ts).1.Some?
    ensures var b := AfterSell(a, symbol, price, qty, fee, tax, ts).0;
      -HALF_TICK <= EquityOf(b, last) - EquityOf(a, last) + fee + tax <= HALF_TICK
  {
    hide AfterSell, FeeShare, Amount, Reduced;
    var b := AfterSell(a, symbol, price, qty, fee, tax, ts).0;
    var earned, p, left := SellShape(a, symbol, price, qty, fee, tax, ts);
    Rebooked(a, symbol, left, PriceFor(last));
    MarkOf(a, symbol, last);
    Distribute(price, p.qty, qty);
  }

  // ----- Any sequence of trades -----

  datatype Op =
    | Buy(symbol: string, price: real, qty: real, fee: real, ts: real)
    | Sell(symbol: string, price: real, qty: real, fee: real, tax: real, ts: real)

  /** What the engine submits: positive quantities and fees quantised to four decimals. */
  predicate Submitted(op: Op) {
    op.qty > 0.0 && OnGrid(op.fee)
  }

  predicate AllSubmitted(ops: seq<Op>) {
    forall i :: 0 <= i < |ops| ==> Submitted(ops[i])
  }

  function Step(a: State, op: Op): (State, Option<ClosedTrade>)
    requires Submitted(op)
  {
    match op
    case Buy(symbol, price, qty, fee, ts) => (AfterBuy(a, symbol, price, qty, fee, ts).0, None)
    case Sell(symbol, price, qty, fee, tax, ts) => AfterSell(a, symbol, price, qty, fee, tax, ts)
  }

  /** The account after the first n trades, and the trades closed by then. */
  function Play(a: State, ops: seq<Op>, n: nat): (State, seq<ClosedTrade>)
    requires n <= |ops| && AllSubmitted(ops)
  {
    if n == 0 then (a, [])
    else
      var (b, closed) := Play(a, ops, n - 1);
      var (c, trade) := Step(b, ops[n - 1]);
      (c, if trade.Some? then closed + [trade.value] else closed)
  }

  /** Opening-fee shares charged to the closed trades of a symbol. */
  function SharesOf(closed: seq<ClosedTrade>, symbol: string): real {
    if closed == [] then 0.0
    else
      var t := closed[|closed| - 1];
      SharesOf(closed[..|closed| - 1], symbol) + (if t.symbol == symbol then t.buyFee else 0.0)
  }

  function TotalPnl(closed: seq<ClosedTrade>): real {
    if closed == [] then 0.0 else TotalPnl(closed[..|closed| - 1]) + closed[|closed| - 1].pnl
  }

  function FeeLeft(a: State, symbol: string): real {
    match Get(a.positions, symbol) case None => 0.0 case Some(p) => p.entryFee
  }

  predicate Bought(a: State, op: Op) {
    op.Buy? && a.cash >= Amount(op.price, op.qty) + op.fee
  }

  /** The fee of a purchase of the symbol: opening a position, or adding to one. */
  function FeePaid(a: State, op: Op, symbol: string, opening: bool): real {
    if Bought(a, op) && op.symbol == symbol && Get(a.positions, symbol).None? == opening then op.fee else 0.0
  }

  /** Fees paid on purchases of a symbol: those that opened a position, or those that added to one. */
  function FeesPaid(a: State, ops: seq<Op>, n: nat, symbol: string, opening: bool): real
    requires n <= |ops| && AllSubmitted(ops)
  {
    if n == 0 then 0.0
    else FeesPaid(a, ops, n - 1, symbol, opening) + FeePaid(Play(a, ops, n - 1).0, ops[n - 1], symbol, opening)
  }

  lemma FullShare(entryFee: real, held: real)
    requires held > 0.0 && OnGrid(entryFee)
    ensures FeeShare(entryFee, held, held) == entryFee
  {
    QuotientBound(entryFee * held, held, entryFee);
  }

  lemma StepKeepsValid(a: State, op: Op)
    requires Valid(a) && Submitted(op)
    ensures Valid(Step(a, op).0)
  {
    hide RoundHalfUp, UnitCost, BlendedAverage, FeeShare, AfterBuy, AfterSell, OnGrid, Amount;
    match op
    case Buy(symbol, price, qty, fee, ts) =>
      if AfterBuy(a, symbol, price, qty, fee, ts).1 {
        var spent, position := BuyShape(a, symbol, price, qty, fee, ts);
        DistinctSet(a.positions, symbol, position);
      } else {
        Refused(a, op);
      }
    case Sell(symbol, price, qty, fee, tax, ts) =>
      if AfterSell(a, symbol, price, qty, fee, tax, ts).1.Some? {
        var earned, p, left := SellShape(a, symbol, price, qty, fee, tax, ts);
        DistinctSet(a.positions, symbol, left);
        DistinctRemove(a.positions, symbol);
        ShareOnGrid(p.entryFee, qty, p.qty);
        GridSum(p.entryFee, FeeShare(p.entryFee, qty, p.qty));
      } else {
        Refused(a, op);
      }
  }

  lemma ShareOnGrid(entryFee: real, qty: real, held: real)
    requires held > 0.0
    ensures OnGrid(FeeShare(entryFee, qty, held))
  {
  }

  /** A trade that does not go through changes nothing. */
  lemma Refused(a: State, op: Op)
    requires Submitted(op)
    requires if op.Buy? then !AfterBuy(a, op.symbol, op.price, op.qty, op.fee, op.ts).1
             else AfterSell(a, op.symbol, op.price, op.qty, op.fee, op.tax, op.ts).1.None?
    ensures Step(a, op) == (a, None) && !Bought(a, op)
  {
    hide RoundHalfUp, UnitCost, BlendedAverage, Close, Amount;
  }

  lemma BoughtIff(a: State, op: Op)
    requires op.Buy? && Submitted(op)
    ensures AfterBuy(a, op.symbol, op.price, op.qty, op.fee, op.ts).1 == Bought(a, op)
  {
    hide RoundHalfUp, UnitCost, BlendedAverage, Amount;
  }

  /** The share of the opening fee is in proportion to the part sold, to half a tick. */
  lemma FeeShareIsProportional(entryFee: real, qty: real, held: real)
    requires held > 0.0
    ensures -HALF_TICK * held <= FeeShare(entryFee, qty, held) * held - entryFee * qty <= HALF_TICK * held
  {
    RoundedQuotient(entryFee * qty, held);
  }

  /** What one trade does to the entry of a symbol: an open position keeps the price and the time it was opened at. */
  lemma StepEntry(a: State, op: Op, symbol: string)
    requires Valid(a) && Submitted(op) && Get(Step(a, op).0.positions, symbol).Some?
    ensures var q := Get(Step(a, op).0.positions, symbol).value;
      match Get(a.positions, symbol)
      case Some(p) => q.entryPrice == p.entryPrice && q.entryTs == p.entryTs
      case None => op.Buy? && op.symbol == symbol && q.entryPrice == op.price && q.entryTs == op.ts
  {
    hide RoundHalfUp, UnitCost, BlendedAverage, FeeShare, OnGrid, Amount, ReturnPct;
    if op.Sell? && op.symbol == symbol && Get(a.positions, symbol).Some? {
      DistinctRemove(a.positions, symbol);
    }
  }

  /** The purchase at j opened the position the symbol has had ever since. */
  ghost predicate OpenedBy(a: State, ops: seq<Op>, n: nat, symbol: string, j: nat)
    requires n <= |ops| && AllSubmitted(ops)
  {
    && j < n && ops[j].Buy? && ops[j].symbol == symbol && Get(Play(a, ops, j).0.positions, symbol).None?
    && forall k :: j < k <= n ==> Get(Play(a, ops, k).0.positions, symbol).Some?
  }

  /** An open position carries the price and the time of the purchase that opened it, whatever was added since. */
  lemma {:induction false} EntryIsOpening(a: State, ops: seq<Op>, n: nat, symbol: string) returns (j: nat)
    requires a.positions == [] && n <= |ops| && AllSubmitted(ops) && Get(Play(a, ops, n).0.positions, symbol).Some?
    ensures OpenedBy(a, ops, n, symbol, j)
    ensures var p := Get(Play(a, ops, n).0.positions, symbol).value;
      p.entryPrice == ops[j].price && p.entryTs == ops[j].ts
  {
    hide Step, Valid;
    var b := Play(a, ops, n - 1).0;
    SharesAreOpeningFees(a, ops, n - 1, symbol);
    StepEntry(b, ops[n - 1], symbol);
    if Get(b.positions, symbol).Some? {
      j := EntryIsOpening(a, ops, n - 1, symbol);
    } else {
      j := n - 1;
    }
  }

  /** A closed trade: the quantity, price, fees and time of the sale, the price and time of the purchase that opened
      the position, and the profit as a part of what the sold quantity cost on average. */
  lemma ClosedTradeSays(a: State, ops: seq<Op>, n: nat) returns (j: nat)
    requires a.positions == [] && n < |ops| && AllSubmitted(ops) && Step(Play(a, ops, n).0, ops[n]).1.Some?
    ensures ops[n].Sell? && Get(Play(a, ops, n).0.positions, ops[n].symbol).Some?
    ensures OpenedBy(a, ops, n, ops[n].symbol, j)
    ensures var t, op, p := Step(Play(a, ops, n).0, ops[n]).1.value, ops[n],
                            Get(Play(a, ops, n).0.positions, ops[n].symbol).value;
      && t.symbol == op.symbol && t.qty == op.qty && t.exitPrice == op.price && t.exitTs == op.ts
      && t.sellFee == op.fee && t.sellTax == op.tax
      && t.entryPrice == ops[j].price && t.entryTs == ops[j].ts
      && t.pnl == op.price * op.qty - op.fee - op.tax - p.avg * op.qty
      && if p.avg * op.qty > 0.0 then t.returnPct * (p.avg * op.qty) == t.pnl else t.returnPct == 0.0
  {
    hide Play, FeeShare, RoundHalfUp, OnGrid, Reduced;
    j := EntryIsOpening(a, ops, n, ops[n].symbol);
  }

  function ShareIn(trade: Option<ClosedTrade>, symbol: string): real {
    if trade.Some? && trade.value.symbol == symbol then trade.value.buyFee else 0.0
  }

  /** What one trade does to the opening fee still carried for a symbol. */
  lemma StepFees(a: State, op: Op, symbol: string)
    requires Valid(a) && Submitted(op)
    ensures var (b, trade) := Step(a, op);
      FeeLeft(b, symbol) + ShareIn(trade, symbol) == FeeLeft(a, symbol) + FeePaid(a, op, symbol, true)
  {
    hide RoundHalfUp, UnitCost, BlendedAverage, FeeShare, AfterBuy, AfterSell, OnGrid, Amount;
    match op
    case Buy(s, price, qty, fee, ts) =>
      BoughtIff(a, op);
      if Bought(a, op) {
        var spent, position := BuyShape(a, s, price, qty, fee, ts);
      } else {
        Refused(a, op);
      }
    case Sell(s, price, qty, fee, tax, ts) =>
      if AfterSell(a, s, price, qty, fee, tax, ts).1.Some? {
        var earned, p, left := SellShape(a, s, price, qty, fee, tax, ts);
        DistinctRemove(a.positions, s);
        if p.qty == qty {
          FullShare(p.entryFee, qty);
        }
      } else {
        Refused(a, op);
      }
  }

  /** The shares charged to sales of a symbol, plus what its open position still carries, are exactly the fees of
      the purchases that opened its positions: when the symbol is flat the shares are those fees to the last unit. */
  lemma {:induction false} SharesAreOpeningFees(a: State, ops: seq<Op>, n: nat, symbol: string)
    requires a.positions == [] && n <= |ops| && AllSubmitted(ops)
    ensures var (b, closed) := Play(a, ops, n);
      Valid(b) && SharesOf(closed, symbol) + FeeLeft(b, symbol) == FeesPaid(a, ops, n, symbol, true)
  {
    hide Step, FeeLeft, FeePaid, Valid, Amount;
    if n == 0 {
      StartsEmpty(a, symbol);
    } else {
      SharesAreOpeningFees(a, ops, n - 1, symbol);
      var (b, closed) := Play(a, ops, n - 1);
      StepKeepsValid(b, ops[n - 1]);
      StepFees(b, ops[n - 1], symbol);
      var trade := Step(b, ops[n - 1]).1;
      if trade.Some? {
        assert (closed + [trade.value])[..|closed|] == closed;
      }
    }
  }

  lemma StartsEmpty(a: State, symbol: string)
    requires a.positions == []
    ensures Valid(a) && FeeLeft(a, symbol) == 0.0
  {
  }

  /** Fees actually paid on purchases of a symbol. */
  function AllFees(a: State, ops: seq<Op>, n: nat, symbol: string): real
    requires n <= |ops| && AllSubmitted(ops)
  {
    if n == 0 then 0.0
    else
      var op := ops[n - 1];
      AllFees(a, ops, n - 1, symbol)
      + (if op.symbol == symbol && Bought(Play(a, ops, n - 1).0, op) then op.fee else 0.0)
  }

  lemma {:induction false} FeesSplit(a: State, ops: seq<Op>, n: nat, symbol: string)
    requires n <= |ops| && AllSubmitted(ops)
    ensures AllFees(a, ops, n, symbol) == FeesPaid(a, ops, n, symbol, true) + FeesPaid(a, ops, n, symbol, false)
  {
    hide Bought, Step, Amount;
    if n != 0 {
      FeesSplit(a, ops, n - 1, symbol);
    }
  }

  /** The shares equal the purchase fees actually paid exactly when the purchases that added to an open position
      cost no fee: those fees are never charged to any closed trade. */
  lemma SharesArePaidFeesIff(a: State, ops: seq<Op>, symbol: string)
    requires a.positions == [] && AllSubmitted(ops)
    requires Get(Play(a, ops, |ops|).0.positions, symbol).None?
    ensures SharesOf(Play(a, ops, |ops|).1, symbol) == AllFees(a, ops, |ops|, symbol)
       <==> FeesPaid(a, ops, |ops|, symbol, false) == 0.0
  {
    SharesAreOpeningFees(a, ops, |ops|, symbol);
    FeesSplit(a, ops, |ops|, symbol);
  }

  /** Opened with a fee of one, added to with a fee of one, sold: two were paid, one is charged. */
  lemma AddedFeeIsNotCharged()
    ensures var a := State(100.0, []);
      var ops := [Buy("x", 1.0, 1.0, 1.0, 0.0), Buy("x", 1.0, 1.0, 1.0, 1.0), Sell("x", 1.0, 2.0, 0.0, 0.0, 2.0)];
      AllSubmitted(ops)
      && Get(Play(a, ops, 3).0.positions, "x").None?
      && SharesOf(Play(a, ops, 3).1, "x") == 1.0 && AllFees(a, ops, 3, "x") == 2.0
  {
    hide BlendedAverage, UnitCost, Close;
    var a := State(100.0, []);
    var ops := [Buy("x", 1.0, 1.0, 1.0, 0.0), Buy("x", 1.0, 1.0, 1.0, 1.0), Sell("x", 1.0, 2.0, 0.0, 0.0, 2.0)];
    assert OnGrid(0.0) && OnGrid(1.0) && OnGrid(98.0) && OnGrid(96.0);
    var unit := UnitCost(2.0, 1.0);
    var first := State(98.0, [("x", Position(1.0, unit, 0.0, 1.0, 1.0))]);
    assert Step(a, ops[0]).0 == first;
    var second := Step(first, ops[1]).0;
    assert Get(second.positions, "x").value.qty == 2.0;
    assert Play(a, ops, 1).0 == first;
    assert Play(a, ops, 2).0 == second;
    assert second.cash == 96.0;
    AddedFee(a, ops, |ops|, first, second);
  }

  lemma AddedFee(a: State, ops: seq<Op>, n: nat, first: State, second: State)
    requires |ops| == n == 3 && AllSubmitted(ops) && a.positions == []
    requires Play(a, ops, n - 2).0 == first && Play(a, ops, n - 1).0 == second
    requires Bought(a, ops[0]) && Bought(first, ops[1]) && ops[2].Sell?
    requires ops[0].fee == ops[1].fee == 1.0 && ops[0].symbol == ops[1].symbol == "x"
    requires Get(first.positions, "x").Some? && Get(Play(a, ops, n).0.positions, "x").None?
    ensures SharesOf(Play(a, ops, n).1, "x") == 1.0 && AllFees(a, ops, n, "x") == 2.0
  {
    hide Step, Valid, Amount;
    assert Get(a.positions, "x").None? && Play(a, ops, n - 3).0 == a;
    assert FeesPaid(a, ops, n - 2, "x", true) == FeesPaid(a, ops, n - 3, "x", true) + 1.0;
    assert FeesPaid(a, ops, n - 1, "x", true) == FeesPaid(a, ops, n - 2, "x", true);
    SharesAreOpeningFees(a, ops, n, "x");
    assert AllFees(a, ops, n - 2, "x") == AllFees(a, ops, n - 3, "x") + 1.0;
    assert AllFees(a, ops, n - 1, "x") == AllFees(a, ops, n - 2, "x") + 1.0;
    assert AllFees(a, ops, n, "x") == AllFees(a, ops, n - 1, "x");
  }

  // ----- Cash against realised profit -----

  function CostAt(): (string, Position) -> real { (s: string, p: Position) => Amount(p.avg, p.qty) }

  function Basis(a: State): real { Sum(a.positions, CostAt()) }

  /** Rounding budget of one trade: cash once, unit cost once per unit bought, the blended average once per unit
      held. */
  function Budget(a: State, op: Op): real {
    if !Bought(a, op) then HALF_TICK
    else HALF_TICK * (1.0 + op.qty)
         + match Get(a.positions, op.symbol) case None => 0.0 case Some(p) => HALF_TICK * (p.qty + op.qty)
  }

  function BudgetOf(a: State, ops: seq<Op>, n: nat): real
    requires n <= |ops| && AllSubmitted(ops)
  {
    if n == 0 then 0.0 else BudgetOf(a, ops, n - 1) + Budget(Play(a, ops, n - 1).0, ops[n - 1])
  }

  lemma RoundedQuotient(x: real, d: real)
    requires d > 0.0
    ensures x - HALF_TICK * d <= Amount(RoundHalfUp(x / d), d) <= x + HALF_TICK * d
  {
    hide RoundHalfUp;
    var y := x / d;
    var r := RoundHalfUp(y);
    assert y * d == x;
    ProductSign(r - y + HALF_TICK, d);
    ProductSign(y + HALF_TICK - r, d);
    assert (r - y + HALF_TICK) * d == d * r - x + HALF_TICK * d;
    assert (y + HALF_TICK - r) * d == x + HALF_TICK * d - d * r;
  }

  lemma UnitCostDrift(cost: real, qty: real, unit: real)
    requires qty > 0.0 && unit == UnitCost(cost, qty)
    ensures cost - HALF_TICK * qty <= Amount(unit, qty) <= cost + HALF_TICK * qty
  {
    RoundedQuotient(cost, qty);
  }

  lemma AverageDrift(held: real, avg: real, qty: real, unit: real, after: Position)
    requires held > 0.0 && qty > 0.0
    requires after.qty == held + qty && after.avg == BlendedAverage(held, avg, qty, unit)
    ensures var total := Amount(avg, held) + Amount(unit, qty);
      total - HALF_TICK * after.qty <= Amount(after.avg, after.qty) <= total + HALF_TICK * after.qty
  {
    RoundedQuotient(Amount(avg, held) + Amount(unit, qty), held + qty);
  }

  function CostOf(p: Position): real { Amount(p.avg, p.qty) }

  lemma BasisMoves(a: State, symbol: string, position: Position)
    ensures Sum(Set(a.positions, symbol, position), CostAt())
         == Basis(a) + CostOf(position) - match Get(a.positions, symbol) case None => 0.0 case Some(p) => CostOf(p)
  {
    SumSet(a.positions, symbol, position, CostAt());
  }

  /** Cost basis booked by a purchase against the money spent on it. */
  lemma BookedCost(held: Option<Position>, spent: real, qty: real, position: Position)
    requires qty > 0.0 && (held.Some? ==> held.value.qty > 0.0)
    requires position.qty == (if held.Some? then held.value.qty else 0.0) + qty
    requires var unit := UnitCost(spent, qty);
      position.avg == if held.Some? then BlendedAverage(held.value.qty, held.value.avg, qty, unit) else unit
    ensures var before := if held.Some? then CostOf(held.value) else 0.0;
      var slack := HALF_TICK * qty + if held.Some? then HALF_TICK * (held.value.qty + qty) else 0.0;
      spent - slack <= CostOf(position) - before <= spent + slack
  {
    hide UnitCost, BlendedAverage, Amount;
    var unit := UnitCost(spent, qty);
    UnitCostDrift(spent, qty, unit);
    if held.Some? {
      AverageDrift(held.value.qty, held.value.avg, qty, unit, position);
    } else {
      assert position.qty == qty;
    }
  }

  lemma BuyDrift(a: State, op: Op)
    requires op.Buy? && Valid(a) && Submitted(op)
    ensures var b := Step(a, op).0;
      -Budget(a, op) <= b.cash + Basis(b) - a.cash - Basis(a) <= Budget(a, op)
  {
    hide UnitCost, BlendedAverage, AfterBuy, Bought, OnGrid, CostOf, Amount;
    BoughtIff(a, op);
    if Bought(a, op) {
      var spent, position := BuyShape(a, op.symbol, op.price, op.qty, op.fee, op.ts);
      BasisMoves(a, op.symbol, position);
      BookedCost(Get(a.positions, op.symbol), spent + op.fee, op.qty, position);
    } else {
      Refused(a, op);
    }
  }

  function PnlIn(trade: Option<ClosedTrade>): real {
    if trade.Some? then trade.value.pnl else 0.0
  }

  lemma SellDrift(a: State, op: Op)
    requires op.Sell? && Submitted(op)
    ensures var (b, trade) := Step(a, op);
      -HALF_TICK <= b.cash + Basis(b) - a.cash - Basis(a) - PnlIn(trade) <= HALF_TICK
  {
    hide AfterSell, FeeShare, OnGrid, Amount, Close, Reduced;
    var (b, trade) := Step(a, op);
    if trade.Some? {
      var earned, p, left := SellShape(a, op.symbol, op.price, op.qty, op.fee, op.tax, op.ts);
      Rebooked(a, op.symbol, left, CostAt());
      Distribute(p.avg, p.qty, op.qty);
    } else {
      Refused(a, op);
    }
  }

  /** Over any trades, cash and remaining cost basis move by the realised profit, within the rounding budget;
      flat, the cash change is the total profit within it. */
  lemma {:induction false} CashIsRealisedProfit(a: State, ops: seq<Op>, n: nat)
    requires a.positions == [] && n <= |ops| && AllSubmitted(ops)
    ensures var (b, closed) := Play(a, ops, n);
      && Valid(b)
      && -BudgetOf(a, ops, n) <= b.cash + Basis(b) - a.cash - TotalPnl(closed) <= BudgetOf(a, ops, n)
      && (b.positions == [] ==> -BudgetOf(a, ops, n) <= b.cash - a.cash - TotalPnl(closed) <= BudgetOf(a, ops, n))
  {
    hide Step, Budget, Valid, Amount;
    if n == 0 {
      StartsEmpty(a, "");
    } else {
      CashIsRealisedProfit(a, ops, n - 1);
      var (b, closed) := Play(a, ops, n - 1);
      var op := ops[n - 1];
      StepKeepsValid(b, op);
      StepDrift(b, op);
      var trade := Step(b, op).1;
      if trade.Some? {
        assert (closed + [trade.value])[..|closed|] == closed;
      }
    }
  }

  lemma StepDrift(a: State, op: Op)
    requires Valid(a) && Submitted(op)
    ensures var (b, trade) := Step(a, op);
      -Budget(a, op) <= b.cash + Basis(b) - a.cash - Basis(a) - PnlIn(trade) <= Budget(a, op)
  {
    hide Basis, AfterBuy, AfterSell, Amount;
    if op.Buy? {
      BuyDrift(a, op);
    } else {
      SellDrift(a, op);
    }
  }
}
