/** The backtest engine: replay of ticks, synchronous fills, equity sampled on an even time grid, running drawdown. */
module Backtest {
  import opened Money
  import opened Dict
  import opened BacktestAccount
  import opened Fills
  import opened Metrics

  datatype Tick = Tick(symbol: string, ts: real, price: real)

  /** What a strategy may ask for while handling a tick. */
  datatype Command =
    | BuyCommand(symbol: string, qty: real, price: Option<real>)
    | SellCommand(symbol: string, qty: real, reason: string, price: Option<real>)

  datatype Book = Book(account: State, closed: seq<(ClosedTrade, string)>)

  /** An explicit price wins over the latest one; anything not positive is no price. */
  function Quote(price: Option<real>, last: map<string, real>, symbol: string): (q: Option<real>)
    ensures q.Some? ==> q.value > 0.0
    ensures price.Some? ==> (q.Some? <==> price.value > 0.0) && (q.Some? ==> q == price)
    ensures price.None? ==> (q.Some? <==> symbol in last && last[symbol] > 0.0) && (q.Some? ==> q.value == last[symbol])
  {
    var mp := if price.Some? then price else if symbol in last then Some(last[symbol]) else None;
    if mp.Some? && mp.value <= 0.0 then None else mp
  }

  function Purchased(a: State, last: map<string, real>, slip: real, c: Command, ts: real): State
    requires c.BuyCommand?
  {
    var qty, mp := Tradable(c.symbol, c.qty), Quote(c.price, last, c.symbol);
    if qty <= 0.0 || mp.None? then a
    else
      var fp := BuyPrice(slip, mp.value);
      AfterBuy(a, c.symbol, fp, qty, Fee(fp, qty), ts).0
  }

  /** A purchase goes through: something to buy, a price, and the cash for it. */
  predicate Accepted(a: State, last: map<string, real>, slip: real, c: Command, ts: real)
    requires c.BuyCommand?
  {
    var qty, mp := Tradable(c.symbol, c.qty), Quote(c.price, last, c.symbol);
    qty > 0.0 && mp.Some?
    && var fp := BuyPrice(slip, mp.value); AfterBuy(a, c.symbol, fp, qty, Fee(fp, qty), ts).1
  }

  function Liquidated(a: State, last: map<string, real>, slip: real, c: Command, ts: real): (State, Option<ClosedTrade>)
    requires c.SellCommand?
  {
    var qty, mp := Tradable(c.symbol, c.qty), Quote(c.price, last, c.symbol);
    if qty <= 0.0 || mp.None? then (a, None)
    else
      var fp := SellPrice(slip, mp.value);
      AfterSell(a, c.symbol, fp, qty, Fee(fp, qty), Tax(c.symbol, fp, qty), ts)
  }

  function Obeyed(b: Book, last: map<string, real>, slip: real, c: Command, ts: real): Book {
    if c.BuyCommand? then b.(account := Purchased(b.account, last, slip, c, ts))
    else
      var (a, trade) := Liquidated(b.account, last, slip, c, ts);
      Book(a, if trade.Some? then b.closed + [(trade.value, c.reason)] else b.closed)
  }

  function ObeyedAll(b: Book, last: map<string, real>, slip: real, cmds: seq<Command>, k: nat, ts: real): Book
    requires k <= |cmds|
  {
    if k == 0 then b else Obeyed(ObeyedAll(b, last, slip, cmds, k - 1, ts), last, slip, cmds[k - 1], ts)
  }

  /** Whatever the strategy, its behaviour in one run is the list of commands it gave at each tick. */
  datatype Input = Input(ticks: seq<Tick>, commands: seq<seq<Command>>, slip: real, start: Book)

  ghost predicate Ready(x: Input) {
    && |x.commands| == |x.ticks|
    && forall i, j :: 0 <= i < j < |x.ticks| ==> x.ticks[i].ts <= x.ticks[j].ts
  }

  function LastPrices(ticks: seq<Tick>, n: nat): map<string, real>
    requires n <= |ticks|
  {
    if n == 0 then map[] else LastPrices(ticks, n - 1)[ticks[n - 1].symbol := ticks[n - 1].price]
  }

  function Replay(x: Input, n: nat): Book
    requires n <= |x.ticks| == |x.commands|
  {
    if n == 0 then x.start
    else
      ObeyedAll(Replay(x, n - 1), LastPrices(x.ticks, n), x.slip, x.commands[n - 1], |x.commands[n - 1]|,
                x.ticks[n - 1].ts)
  }

  /** Equity once tick i has been handled. */
  function EquityAfter(x: Input, i: nat): real
    requires i < |x.ticks| == |x.commands|
  {
    EquityOf(Replay(x, i + 1).account, LastPrices(x.ticks, i + 1))
  }

  /** The initial cash followed by the equity after each tick. */
  function Values(x: Input, initial: real, n: nat): (v: seq<real>)
    requires n <= |x.ticks| == |x.commands|
    ensures |v| == n + 1
    ensures v[0] == initial
    ensures forall i :: 0 <= i < n ==> v[i + 1] == EquityAfter(x, i)
  {
    if n == 0 then [initial] else Values(x, initial, n - 1) + [EquityAfter(x, n - 1)]
  }

  /** Before the strategy sees the first tick. */
  function OpeningEquity(x: Input): real
    requires x.ticks != []
  {
    EquityOf(x.start.account, LastPrices(x.ticks, 1))
  }

  function GridTime(first: real, sample: real, k: nat): (t: real)
    ensures t == first + k as real * sample
  {
    if k == 0 then first else GridTime(first, sample, k - 1) + sample
  }

  /** The sample holds the equity after the last tick strictly before its time. */
  ghost predicate HoldsBefore(x: Input, n: nat, sample: (real, real))
    requires n <= |x.ticks| == |x.commands|
  {
    exists i :: 0 <= i < n && sample.1 == EquityAfter(x, i)
      && x.ticks[i].ts < sample.0 && forall j :: i < j < n ==> sample.0 <= x.ticks[j].ts
  }

  /** The opening sample, then consecutive grid times with what held before each. */
  ghost predicate OnGridTimes(x: Input, n: nat, step: real, curve: seq<(real, real)>)
    requires 0 < n <= |x.ticks| == |x.commands|
  {
    && curve != [] && curve[0] == (x.ticks[0].ts, OpeningEquity(x))
    && (forall k :: 0 <= k < |curve| ==> curve[k].0 == GridTime(x.ticks[0].ts, step, k))
    && (forall k :: 1 <= k < |curve| ==> HoldsBefore(x, n, curve[k]))
  }

  function Last(curve: seq<(real, real)>): real
    requires curve != []
  {
    curve[|curve| - 1].0
  }

  /** The curve after n ticks: the opening sample, then every grid time up to the latest tick and no other. */
  ghost predicate Sampled(x: Input, n: nat, step: real, curve: seq<(real, real)>)
    requires 0 < n <= |x.ticks| == |x.commands|
  {
    OnGridTimes(x, n, step, curve) && Last(curve) <= x.ticks[n - 1].ts < Last(curve) + step
  }

  class BacktestEngine {
    const account: BacktestAccount
    const slippageBps: real
    const sampleSec: real
    var lastPrice: map<string, real>
    var closedTrades: seq<(ClosedTrade, string)>
    var equityCurve: seq<(real, real)>
    var peakEquity: real
    var maxDrawdown: real
    var finalEquity: real
    var firstTs: Option<real>
    var lastTs: Option<real>
    var lastSampleTs: real
    var lastEq: real

    constructor (account: BacktestAccount, slippageBps: real, sampleSec: real)
      ensures this.account == account && this.slippageBps == slippageBps && this.sampleSec == sampleSec
      ensures Fresh()
    {
      this.account, this.slippageBps, this.sampleSec := account, slippageBps, sampleSec;
      lastPrice, closedTrades, equityCurve := map[], [], [];
      peakEquity, maxDrawdown := account.initialCash, 0.0;
      finalEquity, lastEq := account.initialCash, account.initialCash;
      firstTs, lastTs, lastSampleTs := None, None, 0.0;
    }

    predicate Fresh()
      reads this
    {
      && lastPrice == map[] && closedTrades == [] && equityCurve == [] && maxDrawdown == 0.0
      && peakEquity == finalEquity == lastEq == account.initialCash && firstTs.None? && lastTs.None?
    }

    function Current(): Book
      reads this, account
    {
      Book(account.Value(), closedTrades)
    }

    method Buy(c: Command, ts: real) returns (ok: bool)
      requires c.BuyCommand?
      modifies account
      ensures account.Value() == Purchased(old(account.Value()), lastPrice, slippageBps, c, ts)
      ensures ok == Accepted(old(account.Value()), lastPrice, slippageBps, c, ts)
    {
      hide AfterBuy, Tradable, BuyPrice, Fee;
      var qty := Tradable(c.symbol, c.qty);
      if qty <= 0.0 {
        return false;
      }
      var mp := Quote(c.price, lastPrice, c.symbol);
      if mp.None? {
        return false;
      }
      var fp := BuyPrice(slippageBps, mp.value);
      ok := account.ApplyBuy(c.symbol, fp, qty, Fee(fp, qty), ts);
    }

    method Sell(c: Command, ts: real) returns (ok: bool)
      requires c.SellCommand?
      modifies account, this`closedTrades
      ensures Current() == Obeyed(old(Current()), lastPrice, slippageBps, c, ts)
      ensures ok <==> |closedTrades| == |old(closedTrades)| + 1
    {
      hide AfterSell, Tradable, SellPrice, Fee, Tax;
      var qty := Tradable(c.symbol, c.qty);
      if qty <= 0.0 {
        return false;
      }
      var mp := Quote(c.price, lastPrice, c.symbol);
      if mp.None? {
        return false;
      }
      var fp := SellPrice(slippageBps, mp.value);
      var trade := account.ApplySell(c.symbol, fp, qty, Fee(fp, qty), Tax(c.symbol, fp, qty), ts);
      if trade.None? {
        return false;
      }
      closedTrades := closedTrades + [(trade.value, c.reason)];
      return true;
    }

    /** strategy.on_tick: any commands, each carried out before the next is given. */
    method OnTick(cmds: seq<Command>, ts: real)
      modifies account, this`closedTrades
      ensures Current() == ObeyedAll(old(Current()), lastPrice, slippageBps, cmds, |cmds|, ts)
    {
      hide Purchased, Liquidated;
      for k := 0 to |cmds|
        invariant Current() == ObeyedAll(old(Current()), lastPrice, slippageBps, cmds, k, ts)
      {
        if cmds[k].BuyCommand? {
          var ok := Buy(cmds[k], ts);
        } else {
          var ok := Sell(cmds[k], ts);
        }
      }
    }

    /** The grid samples due at a tick all carry the equity before it. */
    method Sample(x: Input, n: nat)
      requires Ready(x) && n < |x.ticks| && sampleSec > 0.0
      requires equityCurve != [] && lastSampleTs == Last(equityCurve) <= x.ticks[n].ts
      requires if n == 0 then equityCurve == [(x.ticks[0].ts, OpeningEquity(x))]
               else Sampled(x, n, sampleSec, equityCurve) && lastEq == EquityAfter(x, n - 1)
      modifies this`lastSampleTs, this`equityCurve
      ensures Sampled(x, n + 1, sampleSec, equityCurve)
      ensures equityCurve != [] && lastSampleTs == Last(equityCurve)
    {
      hide EquityAfter, OpeningEquity, OnGridTimes;
      CarryOver(x, n, sampleSec, equityCurve);
      while x.ticks[n].ts - lastSampleTs >= sampleSec
        invariant equityCurve != [] && lastSampleTs == Last(equityCurve) <= x.ticks[n].ts
        invariant n == 0 ==> lastSampleTs == x.ticks[0].ts
        invariant n > 0 ==> x.ticks[n - 1].ts < lastSampleTs + sampleSec
        invariant OnGridTimes(x, n + 1, sampleSec, equityCurve)
        decreases Steps(x.ticks[n].ts - lastSampleTs, sampleSec)
      {
        FewerSteps(x.ticks[n].ts - lastSampleTs, sampleSec);
        AppendSample(x, n, sampleSec, equityCurve, lastEq);
        lastSampleTs := lastSampleTs + sampleSec;
        equityCurve := equityCurve + [(lastSampleTs, lastEq)];
      }
    }

    /** The fields after the first n ticks. */
    ghost predicate UpTo(x: Input, n: nat)
      requires Ready(x) && n <= |x.ticks|
      reads this, account
    {
      && Current() == Replay(x, n) && lastPrice == LastPrices(x.ticks, n) && x.slip == slippageBps
      && peakEquity == Peak(Values(x, account.initialCash, n), n + 1)
      && maxDrawdown == Drawdown(Values(x, account.initialCash, n), n + 1)
      && (firstTs.None? <==> n == 0)
      && if n == 0 then equityCurve == [] && finalEquity == account.initialCash
         else equityCurve != [] && lastSampleTs == Last(equityCurve) && Sampled(x, n, sampleSec, equityCurve)
              && lastEq == finalEquity == EquityAfter(x, n - 1)
    }

    /** The running peak and drawdown take in one more value. */
    method Track(x: Input, n: nat, eq: real)
      requires Ready(x) && n < |x.ticks| && eq == EquityAfter(x, n)
      requires peakEquity == Peak(Values(x, account.initialCash, n), n + 1)
      requires maxDrawdown == Drawdown(Values(x, account.initialCash, n), n + 1)
      modifies this`finalEquity, this`peakEquity, this`maxDrawdown
      ensures finalEquity == eq
      ensures peakEquity == Peak(Values(x, account.initialCash, n + 1), n + 2)
      ensures maxDrawdown == Drawdown(Values(x, account.initialCash, n + 1), n + 2)
    {
      hide Drop, EquityAfter;
      finalEquity := eq;
      ExtendValues(x, account.initialCash, n);
      if eq > peakEquity {
        peakEquity := eq;
      }
      var drop := Drop(peakEquity, eq);
      if drop > maxDrawdown {
        maxDrawdown := drop;
      }
    }

    /** The first tick opens the curve with the equity before the strategy acts. */
    method Open(x: Input, n: nat)
      requires Ready(x) && n < |x.ticks| && UpTo(x, n)
      modifies this`lastPrice, this`firstTs, this`lastTs, this`lastSampleTs, this`lastEq, this`equityCurve
      ensures lastPrice == LastPrices(x.ticks, n + 1) && firstTs.Some?
      ensures equityCurve != [] && lastSampleTs == Last(equityCurve) <= x.ticks[n].ts
      ensures if n == 0 then equityCurve == [(x.ticks[0].ts, OpeningEquity(x))]
              else Sampled(x, n, sampleSec, equityCurve) && lastEq == EquityAfter(x, n - 1)
    {
      hide EquityOf, Sampled, EquityAfter, Peak, Drawdown;
      var t := x.ticks[n];
      lastPrice := lastPrice[t.symbol := t.price];
      if firstTs.None? {
        firstTs, lastSampleTs := Some(t.ts), t.ts;
        lastEq := account.Equity(lastPrice);
        equityCurve := equityCurve + [(t.ts, lastEq)];
      } else {
        LastSampleNotAhead(x, n, sampleSec, equityCurve);
      }
      lastTs := Some(t.ts);
    }

    /** One tick of the replay. */
    method Handle(x: Input, n: nat)
      requires Ready(x) && n < |x.ticks| && sampleSec > 0.0 && UpTo(x, n)
      modifies this, account
      ensures UpTo(x, n + 1)
    {
      hide ObeyedAll, Sampled, EquityOf, Peak, Drawdown, Values, OpeningEquity;
      Open(x, n);
      OnTick(x.commands[n], x.ticks[n].ts);
      var eq := account.Equity(lastPrice);
      Track(x, n, eq);
      Sample(x, n);
      lastEq := eq;
    }

    method Run(x: Input)
      requires Ready(x) && Fresh() && sampleSec > 0.0 && x.slip == slippageBps && x.start == Current()
      modifies this, account
      ensures Current() == Replay(x, |x.ticks|) && lastPrice == LastPrices(x.ticks, |x.ticks|)
      ensures maxDrawdown == Drawdown(Values(x, account.initialCash, |x.ticks|), |x.ticks| + 1)
      ensures if x.ticks == [] then equityCurve == [] && finalEquity == account.initialCash
              else Sampled(x, |x.ticks|, sampleSec, equityCurve) && finalEquity == EquityAfter(x, |x.ticks| - 1)
    {
      hide Sampled, EquityAfter;
      InitialDrawdown(account.initialCash);
      for n := 0 to |x.ticks|
        invariant UpTo(x, n)
      {
        Handle(x, n);
      }
    }
  }

  // ----- Lemmas of the loop -----

  function Steps(span: real, step: real): nat
    requires step > 0.0
  {
    if span < 0.0 then 0 else
      QuotientBound(span, step, 0.0);
      (span / step).Floor + 1
  }

  lemma FewerSteps(span: real, step: real)
    requires step > 0.0 && span >= step
    ensures Steps(span - step, step) < Steps(span, step)
  {
    var q := span / step;
    assert q * step == span;
    assert (q - 1.0) * step == span - step;
    QuotientBound(span - step, step, q - 1.0);
  }

  lemma {:induction false} GridGrows(first: real, step: real, j: nat, k: nat)
    requires step > 0.0 && j <= k
    ensures GridTime(first, step, j) <= GridTime(first, step, k)
    decreases k
  {
    if j < k {
      GridGrows(first, step, j, k - 1);
    }
  }

  /** What was sampled before a tick stands after it. */
  lemma CarryOver(x: Input, n: nat, step: real, curve: seq<(real, real)>)
    requires Ready(x) && n < |x.ticks| && step > 0.0
    requires if n == 0 then curve == [(x.ticks[0].ts, OpeningEquity(x))] else Sampled(x, n, step, curve)
    ensures OnGridTimes(x, n + 1, step, curve)
  {
    hide HoldsBefore, OpeningEquity;
    if n > 0 {
      forall k | 1 <= k < |curve|
        ensures HoldsBefore(x, n + 1, curve[k])
      {
        GridGrows(x.ticks[0].ts, step, k, |curve| - 1);
        StillBefore(x, n, curve[k]);
      }
    }
  }

  /** The next grid time, when it is due, carries the equity after the previous tick. */
  lemma AppendSample(x: Input, n: nat, step: real, curve: seq<(real, real)>, eq: real)
    requires Ready(x) && 0 < n < |x.ticks| && step > 0.0 && eq == EquityAfter(x, n - 1)
    requires OnGridTimes(x, n + 1, step, curve)
    requires x.ticks[n - 1].ts < Last(curve) + step <= x.ticks[n].ts
    ensures OnGridTimes(x, n + 1, step, curve + [(Last(curve) + step, eq)])
  {
    hide HoldsBefore, OpeningEquity, EquityAfter;
    JustBefore(x, n, (Last(curve) + step, eq));
  }

  lemma StillBefore(x: Input, n: nat, sample: (real, real))
    requires Ready(x) && 0 < n < |x.ticks| && HoldsBefore(x, n, sample) && sample.0 <= x.ticks[n].ts
    ensures HoldsBefore(x, n + 1, sample)
  {
    hide EquityAfter;
    var i :| 0 <= i < n && sample.1 == EquityAfter(x, i)
             && x.ticks[i].ts < sample.0 && forall j :: i < j < n ==> sample.0 <= x.ticks[j].ts;
    assert forall j :: i < j < n + 1 ==> sample.0 <= x.ticks[j].ts;
  }

  lemma JustBefore(x: Input, n: nat, sample: (real, real))
    requires Ready(x) && 0 < n < |x.ticks| && sample.1 == EquityAfter(x, n - 1)
    requires x.ticks[n - 1].ts < sample.0 <= x.ticks[n].ts
    ensures HoldsBefore(x, n + 1, sample)
  {
    hide EquityAfter;
    assert forall j :: n - 1 < j < n + 1 ==> sample.0 <= x.ticks[j].ts;
  }

  lemma LastSampleNotAhead(x: Input, n: nat, step: real, curve: seq<(real, real)>)
    requires Ready(x) && 0 < n < |x.ticks| && Sampled(x, n, step, curve)
    ensures curve != [] && Last(curve) <= x.ticks[n].ts
  {
  }

  lemma InitialDrawdown(initial: real)
    ensures Peak([initial], 1) == initial && Drawdown([initial], 1) == 0.0
  {
  }

  /** One more value: the peak and the drawdown move as the running fields do. */
  lemma ExtendValues(x: Input, initial: real, n: nat)
    requires Ready(x) && n < |x.ticks|
    ensures var v, w := Values(x, initial, n), Values(x, initial, n + 1); var eq := EquityAfter(x, n);
      && Peak(w, n + 2) == (if eq > Peak(v, n + 1) then eq else Peak(v, n + 1))
      && Drawdown(w, n + 2)
         == (if Drop(Peak(w, n + 2), eq) > Drawdown(v, n + 1) then Drop(Peak(w, n + 2), eq) else Drawdown(v, n + 1))
  {
    hide EquityAfter, Drop;
    PrefixMetrics(Values(x, initial, n), EquityAfter(x, n), n + 1);
  }

  lemma {:induction false} PrefixMetrics(v: seq<real>, more: real, n: nat)
    requires 0 < n <= |v|
    ensures Peak(v + [more], n) == Peak(v, n) && Drawdown(v + [more], n) == Drawdown(v, n)
  {
    hide Drop;
    if n > 1 {
      PrefixMetrics(v, more, n - 1);
    }
  }

  // ----- Equity never goes negative, so the running drawdown is the worst fall of the whole run -----

  ghost predicate Solvent(a: State) {
    Valid(a) && a.cash >= 0.0
  }

  ghost predicate Realistic(x: Input) {
    && Ready(x) && x.slip <= 10000.0 && Solvent(x.start.account)
    && forall i :: 0 <= i < |x.ticks| ==> x.ticks[i].price > 0.0
  }

  lemma PurchaseKeepsSolvent(a: State, last: map<string, real>, slip: real, c: Command, ts: real)
    requires c.BuyCommand? && Solvent(a)
    ensures Solvent(Purchased(a, last, slip, c, ts))
  {
    hide Fee, Tradable, BuyPrice, AfterBuy, Valid, OnGrid;
    var qty, mp := Tradable(c.symbol, c.qty), Quote(c.price, last, c.symbol);
    if qty > 0.0 && mp.Some? {
      var fp := BuyPrice(slip, mp.value);
      FeeIsOnGrid(fp, qty);
      var op := Buy(c.symbol, fp, qty, Fee(fp, qty), ts);
      StepKeepsValid(a, op);
      PurchaseLeavesCash(a, op);
    }
  }

  lemma FeeIsOnGrid(price: real, qty: real)
    ensures OnGrid(Fee(price, qty))
  {
    hide RoundHalfEven, Amount;
  }

  lemma PurchaseLeavesCash(a: State, op: Op)
    requires op.Buy? && Submitted(op) && a.cash >= 0.0
    ensures Step(a, op).0.cash >= 0.0
  {
    hide RoundHalfUp, UnitCost, BlendedAverage, Amount, OnGrid;
  }

  lemma SaleKeepsSolvent(a: State, last: map<string, real>, slip: real, c: Command, ts: real)
    requires c.SellCommand? && Solvent(a) && slip <= 10000.0
    ensures Solvent(Liquidated(a, last, slip, c, ts).0)
  {
    hide Fee, Tax, Tradable, SellPrice, AfterSell, Valid, OnGrid;
    var qty, mp := Tradable(c.symbol, c.qty), Quote(c.price, last, c.symbol);
    if qty > 0.0 && mp.Some? {
      var fp := SellPrice(slip, mp.value);
      FeeIsOnGrid(fp, qty);
      var op := Sell(c.symbol, fp, qty, Fee(fp, qty), Tax(c.symbol, fp, qty), ts);
      StepKeepsValid(a, op);
      SlippageIsAdverse(slip, mp.value);
      ProductSign(fp, qty);
      SaleCoversCosts(c.symbol, fp, qty);
      SaleAddsCash(a, op);
    }
  }

  lemma SaleAddsCash(a: State, op: Op)
    requires op.Sell? && Submitted(op) && a.cash >= 0.0 && Amount(op.price, op.qty) - op.fee - op.tax >= 0.0
    ensures Step(a, op).0.cash >= 0.0
  {
    hide RoundHalfUp, Close, Amount, Reduced, OnGrid;
  }

  lemma {:induction false} CommandsKeepSolvent(b: Book, last: map<string, real>, slip: real, cmds: seq<Command>,
                                               k: nat, ts: real)
    requires k <= |cmds| && Solvent(b.account) && slip <= 10000.0
    ensures Solvent(ObeyedAll(b, last, slip, cmds, k, ts).account)
  {
    hide Purchased, Liquidated, Solvent;
    if k > 0 {
      CommandsKeepSolvent(b, last, slip, cmds, k - 1, ts);
      var a := ObeyedAll(b, last, slip, cmds, k - 1, ts).account;
      if cmds[k - 1].BuyCommand? {
        PurchaseKeepsSolvent(a, last, slip, cmds[k - 1], ts);
      } else {
        SaleKeepsSolvent(a, last, slip, cmds[k - 1], ts);
      }
    }
  }

  lemma {:induction false} RunStaysSolvent(x: Input, n: nat)
    requires Realistic(x) && n <= |x.ticks|
    ensures Solvent(Replay(x, n).account)
    ensures forall s :: s in LastPrices(x.ticks, n) ==> LastPrices(x.ticks, n)[s] > 0.0
  {
    hide ObeyedAll, Solvent;
    if n > 0 {
      RunStaysSolvent(x, n - 1);
      CommandsKeepSolvent(Replay(x, n - 1), LastPrices(x.ticks, n), x.slip, x.commands[n - 1], |x.commands[n - 1]|,
                          x.ticks[n - 1].ts);
    }
  }

  lemma {:induction false} HoldingsAreWorth(d: Dict<string, Position>, last: map<string, real>)
    requires forall i :: 0 <= i < |d| ==> PriceFor(last)(d[i].0, d[i].1) >= 0.0
    ensures Sum(d, PriceFor(last)) >= 0.0
  {
    if d != [] {
      HoldingsAreWorth(d[1..], last);
    }
  }

  lemma EquityIsNotNegative(a: State, last: map<string, real>)
    requires Solvent(a) && forall s :: s in last ==> last[s] > 0.0
    ensures EquityOf(a, last) >= 0.0
  {
    hide Amount;
    forall i | 0 <= i < |a.positions|
      ensures PriceFor(last)(a.positions[i].0, a.positions[i].1) >= 0.0
    {
      var (s, p) := a.positions[i];
      GetAt(a.positions, i);
      if s in last {
        AmountSign(last[s], p.qty);
      }
    }
    HoldingsAreWorth(a.positions, last);
  }

  lemma AmountSign(price: real, qty: real)
    requires price >= 0.0 && qty >= 0.0
    ensures Amount(price, qty) >= 0.0
  {
    ProductSign(price, qty);
  }

  /** The drawdown the engine reports is the worst fall from any earlier value, the initial cash included, to any
      later one, and some pair reaches it. */
  lemma ReportedDrawdownIsWorst(x: Input, initial: real)
    requires Realistic(x) && initial >= 0.0
    ensures var v := Values(x, initial, |x.ticks|); var mdd := Drawdown(v, |v|);
      && (forall i, j :: 0 <= i <= j < |v| ==> Drop(v[i], v[j]) <= mdd)
      && (mdd > 0.0 ==> exists i, j :: 0 <= i <= j < |v| && Drop(v[i], v[j]) == mdd)
  {
    hide Drop, EquityAfter;
    var v := Values(x, initial, |x.ticks|);
    forall i | 0 <= i < |v|
      ensures v[i] >= 0.0
    {
      if i > 0 {
        AfterIsNotNegative(x, i - 1);
        assert v[(i - 1) + 1] == EquityAfter(x, i - 1);
      }
    }
    DrawdownIsWorstPair(v, |v|);
  }

  lemma AfterIsNotNegative(x: Input, i: nat)
    requires Realistic(x) && i < |x.ticks|
    ensures EquityAfter(x, i) >= 0.0
  {
    RunStaysSolvent(x, i + 1);
    EquityIsNotNegative(Replay(x, i + 1).account, LastPrices(x.ticks, i + 1));
  }
}
