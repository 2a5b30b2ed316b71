/** Running the trade job again: whether a plan that was filled leaves anything to trade at the same prices. */
module Rerun {
  import opened Money
  import opened Dict
  import opened Schemas
  import opened Ledger
  import opened Rebalance
  import opened TradePlan

  // ----- When the rule holds, without quotients and rounding -----

  /** Inside the band, or too little to buy with the cash, or too little to sell; a lot is the least of both. */
  predicate Quiet(qty: real, price: real, cash: real, current: real, wanted: real, band: real) {
    var gap, lot := wanted - current, price * LOT;
    || (qty > 0.0 && Magnitude(gap) < band * wanted)
    || (if gap > 0.0 then Lesser(gap, cash) < MIN_ORDER_KRW || Lesser(gap, cash) - TICK < lot * (1.0 + FEE_RATE)
        else -gap < MIN_ORDER_KRW || -gap < lot)
  }

  lemma SomeLots(x: real)
    requires x >= 0.0
    ensures RoundDown8(x) > 0.0 <==> x >= LOT
  {
  }

  lemma SomeBought(budget: real, price: real, lot: real)
    requires budget >= MIN_ORDER_KRW && price > 0.0 && lot == price * LOT
    ensures AffordableQty(budget, price) > 0.0 <==> budget - TICK >= lot * (1.0 + FEE_RATE)
  {
    hide RoundDown8;
    var d := price * (1.0 + FEE_RATE);
    QuotientBound(budget - TICK, d, LOT);
    QuotientBound(budget - TICK, d, 0.0);
    SomeLots((budget - TICK) / d);
    assert LOT * d == lot * (1.0 + FEE_RATE);
  }

  lemma SomeSold(excess: real, price: real, qty: real)
    requires excess > 0.0 && price > 0.0 && qty > 0.0
    ensures Lesser(RoundDown8(excess / price), qty) > 0.0 <==> excess >= price * LOT
  {
    hide RoundDown8;
    QuotientBound(excess, price, LOT);
    QuotientBound(excess, price, 0.0);
    SomeLots(excess / price);
  }

  /** For a positive target the rule holds exactly when the account is quiet. */
  lemma HoldIffQuiet(qty: real, price: real, cash: real, equity: real, target: real, band: real,
                     current: real, wanted: real)
    requires qty >= 0.0 && price > 0.0 && equity >= current && target > 0.0
    requires current == qty * price && wanted == equity * target
    ensures Decide(qty, price, cash, equity, target, band) == Hold <==> Quiet(qty, price, cash, current, wanted, band)
  {
    hide InBand, AffordableQty, RoundDown8;
    ProductSign(qty, price);
    if equity > 0.0 {
      BandIs(current - wanted, equity, target, band, wanted);
      StrictProduct(equity, target);
      if wanted > current && Lesser(wanted - current, cash) >= MIN_ORDER_KRW {
        SomeBought(Lesser(wanted - current, cash), price, price * LOT);
      } else if current - wanted >= MIN_ORDER_KRW {
        PositiveFactor(qty, price, current);
        SomeSold(current - wanted, price, qty);
      }
    }
  }

  // ----- Rows that reached their aim stay there -----

  /** All later fees together cost at most the rate on twice the account. */
  const PLAN_RATE := 2.0 * FEE_RATE

  /** One lot, with the drift of the ledger, is small enough for the band: LotFits, for all the fees of a plan. */
  predicate PlanFits(lot: real, band: real, drift: real) {
    band > 0.0
    && (lot + 2.0 * drift) * (band * (1.0 - PLAN_RATE)) <= MIN_ORDER_KRW * (band * (1.0 - PLAN_RATE) - PLAN_RATE)
  }

  lemma PlanFitMeans(lot: real, band: real, drift: real)
    requires lot > 0.0 && drift >= 0.0 && PlanFits(lot, band, drift)
    ensures band * (1.0 - PLAN_RATE) >= PLAN_RATE
    ensures LotFits(lot + 2.0 * drift, band)
  {
    var x := lot + 2.0 * drift;
    ProductSign(x, band * (1.0 - PLAN_RATE));
    assert x * (band * (1.0 - PLAN_RATE)) == (1.0 - PLAN_RATE) * (x * band);
    assert x * (band * (1.0 - FEE_RATE)) == (1.0 - FEE_RATE) * (x * band);
  }

  /** What is left above a target that has lost ft to fees and drift, a lot or less before that. */
  lemma RestStays(unsold: real, wanted: real, ft: real, lot: real, band: real, drift: real)
    requires lot > 0.0 && drift >= 0.0 && PlanFits(lot, band, drift) && unsold < lot
    requires ft <= PLAN_RATE * wanted + drift
    ensures unsold + ft < MIN_ORDER_KRW || unsold + ft < band * (wanted - ft)
  {
    if unsold + ft >= MIN_ORDER_KRW {
      PlanFitMeans(lot, band, drift);
      RestArithmetic2(unsold + ft, wanted - ft, ft, lot + 2.0 * drift, drift, band, band * (1.0 - PLAN_RATE),
                      band * (wanted - ft));
    }
  }

  lemma RestArithmetic2(left: real, kept: real, ft: real, room: real, drift: real, band: real, share: real,
                        bandKept: real)
    requires band > 0.0 && share == band * (1.0 - PLAN_RATE) && share >= PLAN_RATE && bandKept == band * kept
    requires drift >= 0.0 && left < room - 2.0 * drift + ft && (1.0 - PLAN_RATE) * ft - drift <= PLAN_RATE * kept
    requires left >= MIN_ORDER_KRW && room * share <= MIN_ORDER_KRW * (share - PLAN_RATE)
    ensures left < bandKept
  {
    var bandLeft, bandRoom := band * left, band * room;
    var more := PLAN_RATE * kept - (1.0 - PLAN_RATE) * (left - room);
    StrictProduct(band, more);
    assert band * more == PLAN_RATE * bandKept - (1.0 - PLAN_RATE) * (bandLeft - bandRoom);
    ProductSign(left - MIN_ORDER_KRW, share - PLAN_RATE);
    assert (left - MIN_ORDER_KRW) * (share - PLAN_RATE)
           == (1.0 - PLAN_RATE) * bandLeft - PLAN_RATE * left - MIN_ORDER_KRW * (share - PLAN_RATE);
    assert room * share == (1.0 - PLAN_RATE) * bandRoom;
  }

  /** The account is quiet whatever its cash. */
  predicate Near(current: real, wanted: real, band: real) {
    Magnitude(wanted - current) < MIN_ORDER_KRW || Magnitude(wanted - current) < band * wanted
  }

  lemma NearIsQuiet(qty: real, price: real, cash: real, current: real, wanted: real, band: real)
    requires qty > 0.0 && Near(current, wanted, band)
    ensures Quiet(qty, price, cash, current, wanted, band)
  {
  }

  /** A purchase sized on its gap stays near its target, whatever later rows do to the account. */
  lemma BuyStays(current: real, wanted: real, v: real, ft: real, lot: real, band: real, drift: real)
    requires current >= 0.0 && v > 0.0 && lot > 0.0 && drift >= 0.0 && PlanFits(lot, band, drift)
    requires v + FEE_RATE * v <= wanted - current - TICK < v + FEE_RATE * v + lot * (1.0 + FEE_RATE)
    requires -drift <= ft <= PLAN_RATE * wanted + drift
    ensures Near(current + v, wanted - ft, band)
  {
    hide PlanFits, LotFits;
    PlanFitMeans(lot, band, drift);
    RestStays(0.0, wanted, ft, lot, band, drift);
    if current + v < wanted - ft {
      if band >= 1.0 {
        WideBand(wanted - ft, wanted - ft - current - v, band);
      } else {
        GapTooSmall(current, wanted - ft, v, 0.0, lot + 2.0 * drift, band);
      }
    } else {
      LessNear(current + v - wanted + ft, ft, band * (wanted - ft));
    }
  }

  lemma LessNear(x: real, y: real, bound: real)
    requires x <= y && (y < MIN_ORDER_KRW || y < bound)
    ensures x < MIN_ORDER_KRW || x < bound
  {
  }

  /** A sale down to its target stays near it. */
  lemma SellStays(current: real, wanted: real, v: real, ft: real, lot: real, band: real, drift: real)
    requires wanted > 0.0 && lot > 0.0 && drift >= 0.0 && PlanFits(lot, band, drift)
    requires v <= current - wanted < v + lot && -drift <= ft <= PLAN_RATE * wanted + drift
    ensures Near(current - v, wanted - ft, band)
  {
    hide PlanFits;
    RestStays(current - v - wanted, wanted, ft, lot, band, drift);
    if current - v < wanted - ft {
      DriftIsSmall(lot, band, drift);
    }
  }

  lemma DriftIsSmall(lot: real, band: real, drift: real)
    requires lot > 0.0 && drift >= 0.0 && PlanFits(lot, band, drift)
    ensures drift < MIN_ORDER_KRW
  {
    PlanFitMeans(lot, band, drift);
    CancelFactor(lot + 2.0 * drift, MIN_ORDER_KRW, band * (1.0 - PLAN_RATE));
  }
  // ----- What all the later rows of a plan can cost -----

  ghost predicate PricesOk(prices: Prices) {
    forall s :: PriceOf(prices, s) >= 0.0
  }

  /** One account, planned at real prices: a plain starting book, each symbol once. */
  ghost predicate Sensible(s: Snapshot, analysis: Analysis) {
    && Solvent(Book(s.cash, s.positions)) && Distinct(s.positions) && PricesOk(s.prices) && DistinctKeys(analysis)
    && forall i :: 0 <= i < |analysis| && analysis[i].1.Some? ==> analysis[i].1.value <= 1.0
  }

  function Worth(positions: Dict<string, real>, prices: Prices, symbol: string): real {
    QuantityOf(positions, symbol) * PriceOf(prices, symbol)
  }

  /** What the account holds of the symbols from row i on. */
  function Ahead(positions: Dict<string, real>, prices: Prices, analysis: Analysis, i: nat): real
    requires i <= |analysis|
    decreases |analysis| - i
  {
    if i == |analysis| then 0.0
    else Worth(positions, prices, analysis[i].0) + Ahead(positions, prices, analysis, i + 1)
  }

  lemma {:induction false} AheadSame(p: Dict<string, real>, q: Dict<string, real>, prices: Prices, analysis: Analysis,
                                     i: nat)
    requires i <= |analysis|
    requires forall k :: i <= k < |analysis| ==> QuantityOf(p, analysis[k].0) == QuantityOf(q, analysis[k].0)
    ensures Ahead(p, prices, analysis, i) == Ahead(q, prices, analysis, i)
    decreases |analysis| - i
  {
    if i < |analysis| {
      AheadSame(p, q, prices, analysis, i + 1);
    }
  }

  lemma {:induction false} WorthIsWeight(positions: Dict<string, real>, prices: Prices, symbol: string)
    ensures WeightAt(positions, symbol, ValueAt(prices)) == Worth(positions, prices, symbol)
  {
  }

  lemma {:induction false} SumNotNegative(positions: Dict<string, real>, prices: Prices)
    requires Distinct(positions) && PricesOk(prices) && forall k :: QuantityOf(positions, k) >= 0.0
    ensures Sum(positions, ValueAt(prices)) >= 0.0
  {
    if positions != [] {
      RestQuantities(positions);
      SumNotNegative(positions[1..], prices);
      assert QuantityOf(positions, positions[0].0) == positions[0].1;
      ProductSign(positions[0].1, PriceOf(prices, positions[0].0));
    }
  }

  lemma RestQuantities(positions: Dict<string, real>)
    requires Distinct(positions) && positions != []
    ensures forall k :: QuantityOf(positions[1..], k) == if k == positions[0].0 then 0.0 else QuantityOf(positions, k)
  {
  }

  lemma RemoveQuantities(positions: Dict<string, real>, symbol: string)
    requires Distinct(positions)
    ensures Distinct(Remove(positions, symbol))
    ensures forall k ::
      QuantityOf(Remove(positions, symbol), k) == if k == symbol then 0.0 else QuantityOf(positions, k)
  {
    DistinctRemove(positions, symbol);
  }

  /** Symbols that come once are worth no more than everything held. */
  lemma {:induction false} AheadWithinSum(positions: Dict<string, real>, prices: Prices, analysis: Analysis, i: nat)
    requires i <= |analysis| && DistinctKeys(analysis) && Distinct(positions) && PricesOk(prices)
    requires forall k :: QuantityOf(positions, k) >= 0.0
    ensures 0.0 <= Ahead(positions, prices, analysis, i) <= Sum(positions, ValueAt(prices))
    decreases |analysis| - i
  {
    if i == |analysis| {
      SumNotNegative(positions, prices);
    } else {
      var symbol := analysis[i].0;
      var rest := Remove(positions, symbol);
      RemoveQuantities(positions, symbol);
      SumRemove(positions, symbol, ValueAt(prices));
      WorthIsWeight(positions, prices, symbol);
      AheadWithinSum(rest, prices, analysis, i + 1);
      AheadSame(positions, rest, prices, analysis, i + 1);
      ProductSign(QuantityOf(positions, symbol), PriceOf(prices, symbol));
    }
  }

  /** Two dictionaries with the same quantities are worth the same, whatever their order and their zero entries. */
  lemma {:induction false} SameQuantitiesSameSum(p: Dict<string, real>, q: Dict<string, real>, prices: Prices)
    requires Distinct(p) && Distinct(q) && forall k :: QuantityOf(p, k) == QuantityOf(q, k)
    ensures Sum(p, ValueAt(prices)) == Sum(q, ValueAt(prices))
    decreases |p| + |q|
  {
    if p != [] {
      var k := p[0].0;
      RestQuantities(p);
      RemoveQuantities(q, k);
      SumRemove(q, k, ValueAt(prices));
      WorthIsWeight(q, prices, k);
      assert QuantityOf(p, k) == p[0].1;
      RemoveShorter(q, k);
      SameQuantitiesSameSum(p[1..], Remove(q, k), prices);
    } else if q != [] {
      RestQuantities(q);
      assert QuantityOf(q, q[0].0) == q[0].1 == QuantityOf(p, q[0].0) == 0.0;
      SameQuantitiesSameSum(p, q[1..], prices);
    }
  }

  lemma {:induction false} RemoveShorter<V>(d: Dict<string, V>, k: string)
    ensures |Remove(d, k)| <= |d|
  {
    if d != [] && d[0].0 != k {
      RemoveShorter(d[1..], k);
    }
  }

  /** Cash, and twice what the coming rows could sell: an upper bound on what they can turn over. */
  function Potential(s: Snapshot, analysis: Analysis, band: real, i: nat): real
    requires i <= |analysis|
  {
    var b := BookAfter(s, analysis, band, i);
    b.cash + 2.0 * Ahead(b.positions, s.prices, analysis, i)
  }

  function EquityAt(s: Snapshot, analysis: Analysis, band: real, i: nat): real
    requires i <= |analysis|
  {
    BookEquity(BookAfter(s, analysis, band, i), s.prices)
  }

  lemma PlannedDistinct(b: Book, symbol: string, price: real, d: Decision)
    requires Distinct(b.positions)
    ensures Distinct(Planned(b, symbol, price, d).positions)
  {
    if d.Trade? {
      DistinctSet(b.positions, symbol, QuantityOf(b.positions, symbol) + d.quantity);
      DistinctSet(b.positions, symbol, QuantityOf(b.positions, symbol) - d.quantity);
    }
  }

  lemma {:induction false} BooksDistinct(s: Snapshot, analysis: Analysis, band: real, n: nat)
    requires n <= |analysis| && Distinct(s.positions)
    ensures Distinct(BookAfter(s, analysis, band, n).positions)
  {
    hide Choose, Planned;
    if n > 0 {
      BooksDistinct(s, analysis, band, n - 1);
      var b := BookAfter(s, analysis, band, n - 1);
      PlannedDistinct(b, analysis[n - 1].0, PriceOf(s.prices, analysis[n - 1].0),
                      Choose(b, s.prices, analysis[n - 1].0, analysis[n - 1].1, band));
    }
  }

  lemma ValueIs(prices: Prices, symbol: string, qty: real)
    ensures ValueAt(prices)(symbol, qty) == qty * PriceOf(prices, symbol)
  {
  }

  lemma SetWorth(positions: Dict<string, real>, prices: Prices, symbol: string, held: real, next: real, change: real)
    requires held == QuantityOf(positions, symbol) && change == (next - held) * PriceOf(prices, symbol)
    ensures Sum(Set(positions, symbol, next), ValueAt(prices)) == Sum(positions, ValueAt(prices)) + change
  {
    hide QuantityOf, PriceOf, ValueAt, WeightAt;
    SumSet(positions, symbol, next, ValueAt(prices));
    WorthIsWeight(positions, prices, symbol);
    ValueIs(prices, symbol, next);
  }

  lemma PlannedSet(b: Book, symbol: string, price: real, d: Decision, held: real)
    requires d.Trade? && held == QuantityOf(b.positions, symbol)
    ensures Planned(b, symbol, price, d).positions
         == Set(b.positions, symbol, if d.side.BUY? then held + d.quantity else held - d.quantity)
  {
  }

  /** A planned trade of value v costs the account exactly its fee. */
  lemma PlannedEquity(b: Book, prices: Prices, symbol: string, d: Decision, v: real)
    requires d.Trade? && v == PriceOf(prices, symbol) * d.quantity
    ensures BookEquity(Planned(b, symbol, PriceOf(prices, symbol), d), prices) == BookEquity(b, prices) - FEE_RATE * v
  {
    hide PriceOf, QuantityOf, Planned, ValueAt;
    var price, held := PriceOf(prices, symbol), QuantityOf(b.positions, symbol);
    PlannedCash(b, symbol, price, d, v);
    PlannedSet(b, symbol, price, d, held);
    if d.side.BUY? {
      SetWorth(b.positions, prices, symbol, held, held + d.quantity, v);
    } else {
      assert (held - d.quantity - held) * price == -v;
      SetWorth(b.positions, prices, symbol, held, held - d.quantity, -v);
    }
  }

  lemma PotentialStep(s: Snapshot, analysis: Analysis, band: real, j: nat, b: Book, next: Book)
    requires j < |analysis| && DistinctKeys(analysis)
    requires b == BookAfter(s, analysis, band, j) && next == BookAfter(s, analysis, band, j + 1)
    requires forall k :: k != analysis[j].0 ==> QuantityOf(b.positions, k) == QuantityOf(next.positions, k)
    ensures Potential(s, analysis, band, j) - Potential(s, analysis, band, j + 1)
         == b.cash - next.cash + 2.0 * Worth(b.positions, s.prices, analysis[j].0)
  {
    hide QuantityOf, Worth, BookAfter;
    AheadSame(b.positions, next.positions, s.prices, analysis, j + 1);
  }

  /** What one row does to the equity and to the potential. */
  lemma RowCost(s: Snapshot, analysis: Analysis, band: real, j: nat)
    requires j < |analysis| && Sensible(s, analysis)
    ensures var spent := EquityAt(s, analysis, band, j) - EquityAt(s, analysis, band, j + 1);
      0.0 <= spent <= FEE_RATE * (Potential(s, analysis, band, j) - Potential(s, analysis, band, j + 1))
  {
    hide Choose, Planned, BookEquity, Worth, QuantityOf, PriceOf;
    var b := BookAfter(s, analysis, band, j);
    var (symbol, target) := analysis[j];
    var price := PriceOf(s.prices, symbol);
    var d := Choose(b, s.prices, symbol, target, band);
    var next := Planned(b, symbol, price, d);
    PlanStaysSolvent(s, analysis, band, j);
    WorthIs(b.positions, s.prices, symbol);
    if d.Trade? {
      var v := price * d.quantity;
      PlannedPositions(b, symbol, price, d);
      PotentialStep(s, analysis, band, j, b, next);
      ChooseSpends(b, s.prices, symbol, target, band);
      PlannedEquity(b, s.prices, symbol, d, v);
      PlannedCash(b, symbol, price, d, v);
      TradeWithinWorth(price, d, QuantityOf(b.positions, symbol), v);
    } else {
      HoldKeeps(b, symbol, price);
      PotentialStep(s, analysis, band, j, b, next);
    }
  }

  lemma TradeWithinWorth(price: real, d: Decision, held: real, v: real)
    requires price > 0.0 && d.Trade? && d.quantity > 0.0 && v == price * d.quantity
    ensures v > 0.0 && (d.quantity <= held ==> v <= held * price)
  {
    StrictProduct(price, d.quantity);
    if d.quantity <= held {
      ProductSign(held - d.quantity, price);
    }
  }

  lemma WorthIs(positions: Dict<string, real>, prices: Prices, symbol: string)
    requires PricesOk(prices) && QuantityOf(positions, symbol) >= 0.0
    ensures Worth(positions, prices, symbol) == QuantityOf(positions, symbol) * PriceOf(prices, symbol) >= 0.0
  {
    ProductSign(QuantityOf(positions, symbol), PriceOf(prices, symbol));
  }

  lemma HoldKeeps(b: Book, symbol: string, price: real)
    ensures Planned(b, symbol, price, Hold) == b
  {
  }

  lemma {:induction false} RowsCost(s: Snapshot, analysis: Analysis, band: real, i: nat, n: nat)
    requires i <= n <= |analysis| && Sensible(s, analysis)
    ensures var spent := EquityAt(s, analysis, band, i) - EquityAt(s, analysis, band, n);
      0.0 <= spent <= FEE_RATE * (Potential(s, analysis, band, i) - Potential(s, analysis, band, n))
  {
    hide EquityAt, Potential, Sensible;
    if i < n {
      RowsCost(s, analysis, band, i, n - 1);
      RowCost(s, analysis, band, n - 1);
    }
  }

  /** From any row on, the fees of a whole plan stay within the plan rate on the account. */
  lemma FeesWithinRate(s: Snapshot, analysis: Analysis, band: real, i: nat)
    requires i <= |analysis| && Sensible(s, analysis)
    ensures var n := |analysis|;
      && 0.0 <= EquityAt(s, analysis, band, i) - EquityAt(s, analysis, band, n)
                <= PLAN_RATE * EquityAt(s, analysis, band, i)
      && EquityAt(s, analysis, band, n) >= 0.0
  {
    hide Choose, Planned, BookAfter;
    var n := |analysis|;
    RowsCost(s, analysis, band, i, n);
    BooksDistinct(s, analysis, band, i);
    BooksDistinct(s, analysis, band, n);
    PlanStaysSolvent(s, analysis, band, i);
    PlanStaysSolvent(s, analysis, band, n);
    AheadWithinSum(BookAfter(s, analysis, band, i).positions, s.prices, analysis, i);
    AheadWithinSum(BookAfter(s, analysis, band, n).positions, s.prices, analysis, n);
  }

  // ----- The second run -----

  /** A row with a price and something to aim at. */
  predicate Aims(s: Snapshot, analysis: Analysis, i: nat)
    requires i < |analysis|
  {
    PriceOf(s.prices, analysis[i].0) != 0.0 && analysis[i].1.Some? && analysis[i].1.value > 0.0
  }

  /** What a row would have to buy to reach its target (negative: to sell). */
  function GapAt(b: Book, prices: Prices, symbol: string, target: real): real {
    BookEquity(b, prices) * target - Worth(b.positions, prices, symbol)
  }

  /** The first run left the row short of its target: held, or bought for less than the gap because of the cash. */
  predicate LeftOpen(s: Snapshot, analysis: Analysis, band: real, i: nat)
    requires i < |analysis|
  {
    var b := BookAfter(s, analysis, band, i);
    var (symbol, target) := analysis[i];
    var d := Choose(b, s.prices, symbol, target, band);
    Aims(s, analysis, i) && (d.Hold? || (d.side.BUY? && GapAt(b, s.prices, symbol, target.value) > b.cash))
  }

  /** A snapshot of the account once the plan has been filled: the planned quantities, and the planned cash up to the
      drift of the ledger. */
  ghost predicate FollowsUp(s: Snapshot, s2: Snapshot, analysis: Analysis, band: real, drift: real) {
    var final := BookAfter(s, analysis, band, |analysis|);
    && s2.prices == s.prices && Distinct(s2.positions)
    && (forall k :: QuantityOf(s2.positions, k) == QuantityOf(final.positions, k))
    && s2.cash >= 0.0 && -drift <= s2.cash - final.cash <= drift
  }

  /** Every lot is small enough for the band, the plan's fees and the drift. */
  ghost predicate AllFit(s: Snapshot, analysis: Analysis, band: real, drift: real) {
    drift >= 0.0
    && forall i :: 0 <= i < |analysis| && Aims(s, analysis, i) ==>
      PlanFits(PriceOf(s.prices, analysis[i].0) * LOT, band, drift)
  }

  /** The target's share of the account. */
  function WantedAt(s: Snapshot, target: real): real { BookEquity(Book(s.cash, s.positions), s.prices) * target }

  predicate RowQuiet(s: Snapshot, symbol: string, target: real, band: real) {
    Quiet(QuantityOf(s.positions, symbol), PriceOf(s.prices, symbol), s.cash, Worth(s.positions, s.prices, symbol),
          WantedAt(s, target), band)
  }

  lemma WorthWithinEquity(b: Book, prices: Prices, symbol: string)
    requires Solvent(b) && Distinct(b.positions) && PricesOk(prices)
    ensures 0.0 <= Worth(b.positions, prices, symbol) <= BookEquity(b, prices)
  {
    hide Worth;
    WorthIs(b.positions, prices, symbol);
    var one: Analysis := [(symbol, None)];
    AheadWithinSum(b.positions, prices, one, 0);
    assert Ahead(b.positions, prices, one, 1) == 0.0;
  }

  lemma HoldsIffQuiet(s: Snapshot, symbol: string, target: Option<real>, band: real)
    requires Solvent(Book(s.cash, s.positions)) && Distinct(s.positions) && PricesOk(s.prices)
    requires PriceOf(s.prices, symbol) != 0.0 && target.Some? && target.value > 0.0
    ensures Choose(Book(s.cash, s.positions), s.prices, symbol, target, band) == Hold
       <==> RowQuiet(s, symbol, target.value, band)
  {
    hide Decide, Quiet, BookEquity, QuantityOf, PriceOf;
    var b := Book(s.cash, s.positions);
    var qty, price, equity := QuantityOf(s.positions, symbol), PriceOf(s.prices, symbol), BookEquity(b, s.prices);
    WorthWithinEquity(b, s.prices, symbol);
    HoldIffQuiet(qty, price, s.cash, equity, target.value, band, Worth(s.positions, s.prices, symbol),
                 equity * target.value);
    assert Choose(b, s.prices, symbol, target, band) == Decide(qty, price, s.cash, equity, target.value, band);
    assert WantedAt(s, target.value) == equity * target.value;
  }

  /** Later rows trade other symbols. */
  lemma {:induction false} SymbolIsDone(s: Snapshot, analysis: Analysis, band: real, i: nat, n: nat)
    requires i < n <= |analysis| && DistinctKeys(analysis)
    ensures QuantityOf(BookAfter(s, analysis, band, n).positions, analysis[i].0)
         == QuantityOf(BookAfter(s, analysis, band, i + 1).positions, analysis[i].0)
  {
    hide Choose, Planned, QuantityOf;
    if i + 1 < n {
      SymbolIsDone(s, analysis, band, i, n - 1);
      var b := BookAfter(s, analysis, band, n - 1);
      var (symbol, target) := analysis[n - 1];
      var price := PriceOf(s.prices, symbol);
      var d := Choose(b, s.prices, symbol, target, band);
      if d.Trade? {
        PlannedPositions(b, symbol, price, d);
      } else {
        HoldKeeps(b, symbol, price);
      }
    }
  }

  /** How far the account can have moved between a row of the first run and the second run. */
  lemma EquityMoves(s: Snapshot, s2: Snapshot, analysis: Analysis, band: real, drift: real, i: nat)
    requires i < |analysis| && Sensible(s, analysis) && FollowsUp(s, s2, analysis, band, drift)
    ensures var e, e2 := EquityAt(s, analysis, band, i), BookEquity(Book(s2.cash, s2.positions), s2.prices);
      -drift <= e - e2 <= PLAN_RATE * e + drift
  {
    hide BookAfter, QuantityOf;
    FeesWithinRate(s, analysis, band, i);
    BooksDistinct(s, analysis, band, |analysis|);
    SameQuantitiesSameSum(BookAfter(s, analysis, band, |analysis|).positions, s2.positions, s.prices);
  }

  lemma ShareMoves(e: real, e2: real, target: real, drift: real)
    requires 0.0 <= target <= 1.0 && drift >= 0.0 && -drift <= e - e2 <= PLAN_RATE * e + drift
    ensures -drift <= (e - e2) * target <= PLAN_RATE * (e * target) + drift
    ensures e2 * target == e * target - (e - e2) * target
  {
    ProductSign(e - e2 + drift, target);
    ProductSign(PLAN_RATE * e + drift - (e - e2), target);
    ProductSign(drift, 1.0 - target);
    assert (e - e2 + drift) * target == (e - e2) * target + drift * target;
    assert (PLAN_RATE * e + drift - (e - e2)) * target
           == PLAN_RATE * (e * target) + drift * target - (e - e2) * target;
    assert drift * (1.0 - target) == drift - drift * target;
  }

  /** A purchase for its whole gap is followed by nothing, whatever the later rows cost. */
  lemma PurchaseStays(qty: real, price: real, cash: real, equity: real, target: real, band: real, drift: real,
                      current: real, wanted: real, q: real, v: real, ft: real, cash2: real,
                      qty2: real, current2: real, wanted2: real)
    requires qty >= 0.0 && price > 0.0 && equity > 0.0 && 0.0 < target <= 1.0 && drift >= 0.0
    requires current == qty * price && wanted == equity * target && wanted - current <= cash && v == price * q
    requires Adjust(qty, price, cash, equity, target, band, current, wanted) == Trade(BUY, q)
    requires qty2 == qty + q && current2 == qty2 * price && wanted2 == wanted - ft
    requires PlanFits(price * LOT, band, drift) && -drift <= ft <= PLAN_RATE * wanted + drift
    ensures Quiet(qty2, price, cash2, current2, wanted2, band)
  {
    hide Adjust, AffordableQty, Quiet, PlanFits, Near;
    BuyMeans(qty, price, cash, equity, target, band, current, wanted, q);
    Sizing(wanted - current, price, q, v);
    StrictProduct(price, q);
    ProductSign(qty, price);
    BuyStays(current, wanted, v, ft, price * LOT, band, drift);
    assert current2 == current + v;
    NearIsQuiet(qty2, price, cash2, current2, wanted2, band);
  }

  lemma SaleStays(qty: real, price: real, cash: real, equity: real, target: real, band: real, drift: real,
                  current: real, wanted: real, q: real, v: real, ft: real, cash2: real,
                      qty2: real, current2: real, wanted2: real)
    requires qty >= 0.0 && price > 0.0 && equity > 0.0 && 0.0 < target <= 1.0 && drift >= 0.0
    requires current == qty * price && wanted == equity * target && v == price * q
    requires Adjust(qty, price, cash, equity, target, band, current, wanted) == Trade(SELL, q)
    requires qty2 == qty - q && current2 == qty2 * price && wanted2 == wanted - ft
    requires PlanFits(price * LOT, band, drift) && -drift <= ft <= PLAN_RATE * wanted + drift
    ensures Quiet(qty2, price, cash2, current2, wanted2, band)
  {
    hide Adjust, RoundDown8, Quiet, PlanFits, Near;
    SellMeans(qty, price, cash, equity, target, band, current, wanted, q);
    StrictProduct(equity, target);
    SellSizing(qty, price, current, current - wanted, q, v);
    SellStays(current, wanted, v, ft, price * LOT, band, drift);
    assert current2 == current - v;
    PositiveFactor(qty2, price, current2);
    NearIsQuiet(qty2, price, cash2, current2, wanted2, band);
  }

  lemma ChosenIsAdjusted(b: Book, prices: Prices, symbol: string, target: Option<real>, band: real,
                         qty: real, price: real, equity: real, current: real, wanted: real)
    requires qty == QuantityOf(b.positions, symbol) && price == PriceOf(prices, symbol) != 0.0
    requires equity == BookEquity(b, prices) && current == qty * price
    requires target.Some? && target.value > 0.0 && wanted == equity * target.value
    requires Choose(b, prices, symbol, target, band).Trade?
    ensures price > 0.0 && equity > 0.0
    ensures Choose(b, prices, symbol, target, band)
         == Adjust(qty, price, b.cash, equity, target.value, band, current, wanted)
  {
    hide Adjust, BookEquity, QuantityOf, PriceOf;
    DecideIs(qty, price, b.cash, equity, target.value, band, current, wanted);
  }

  /** A row that traded without being limited by cash is quiet in the second run. */
  lemma TradedRowStays(s: Snapshot, s2: Snapshot, analysis: Analysis, band: real, drift: real, i: nat)
    requires i < |analysis| && Sensible(s, analysis) && FollowsUp(s, s2, analysis, band, drift)
    requires AllFit(s, analysis, band, drift) && Aims(s, analysis, i) && !LeftOpen(s, analysis, band, i)
    ensures RowQuiet(s2, analysis[i].0, analysis[i].1.value, band)
  {
    hide BookAfter, Choose, Adjust, BookEquity, QuantityOf, PriceOf, Planned, PlanFits, Quiet;
    var b := BookAfter(s, analysis, band, i);
    var (symbol, target) := analysis[i];
    var d, price := Choose(b, s.prices, symbol, target, band), PriceOf(s.prices, symbol);
    PlanStaysSolvent(s, analysis, band, i);
    var qty, equity := QuantityOf(b.positions, symbol), BookEquity(b, s.prices);
    var current, wanted := qty * price, equity * target.value;
    ChosenIsAdjusted(b, s.prices, symbol, target, band, qty, price, equity, current, wanted);
    GapIs(b, s.prices, symbol, target.value, current, wanted);
    NextBook(s, analysis, band, i);
    SymbolIsDone(s, analysis, band, i, |analysis|);
    PlannedPositions(b, symbol, price, d);
    EquityMoves(s, s2, analysis, band, drift, i);
    RowSettles(s2, symbol, target.value, band, drift, qty, price, b.cash, equity, current, wanted, d,
               BookEquity(Book(s2.cash, s2.positions), s2.prices));
  }

  lemma GapIs(b: Book, prices: Prices, symbol: string, target: real, current: real, wanted: real)
    requires current == QuantityOf(b.positions, symbol) * PriceOf(prices, symbol)
    requires wanted == BookEquity(b, prices) * target
    ensures GapAt(b, prices, symbol, target) == wanted - current
  {
    hide BookEquity, QuantityOf, PriceOf;
  }

  lemma NextBook(s: Snapshot, analysis: Analysis, band: real, i: nat)
    requires i < |analysis|
    ensures var (symbol, target) := analysis[i];
      var b := BookAfter(s, analysis, band, i);
      BookAfter(s, analysis, band, i + 1)
      == Planned(b, symbol, PriceOf(s.prices, symbol), Choose(b, s.prices, symbol, target, band))
  {
  }

  lemma RowSettles(s2: Snapshot, symbol: string, target: real, band: real, drift: real, qty: real, price: real,
                   cash: real, e: real, current: real, wanted: real, d: Decision, e2: real)
    requires qty >= 0.0 && price > 0.0 && e > 0.0 && 0.0 < target <= 1.0 && drift >= 0.0 && d.Trade?
    requires PlanFits(price * LOT, band, drift) && price == PriceOf(s2.prices, symbol)
    requires current == qty * price && wanted == e * target
    requires d == Adjust(qty, price, cash, e, target, band, current, wanted)
    requires d.side.BUY? ==> wanted - current <= cash
    requires QuantityOf(s2.positions, symbol) == if d.side.BUY? then qty + d.quantity else qty - d.quantity
    requires e2 == BookEquity(Book(s2.cash, s2.positions), s2.prices) && -drift <= e - e2 <= PLAN_RATE * e + drift
    ensures RowQuiet(s2, symbol, target, band)
  {
    hide Adjust, BookEquity, QuantityOf, PriceOf, PlanFits, Quiet;
    var v, ft := price * d.quantity, (e - e2) * target;
    ShareMoves(e, e2, target, drift);
    var qty2 := if d.side.BUY? then qty + d.quantity else qty - d.quantity;
    var current2, wanted2 := qty2 * price, e2 * target;
    if d.side.BUY? {
      PurchaseStays(qty, price, cash, e, target, band, drift, current, wanted, d.quantity, v, ft, s2.cash,
                    qty2, current2, wanted2);
    } else {
      SaleStays(qty, price, cash, e, target, band, drift, current, wanted, d.quantity, v, ft, s2.cash,
                qty2, current2, wanted2);
    }
    QuietIs(s2, symbol, target, band, qty2, price, e2, current2, wanted2);
  }

  lemma WorthOf(positions: Dict<string, real>, prices: Prices, symbol: string, qty: real, price: real)
    requires qty == QuantityOf(positions, symbol) && price == PriceOf(prices, symbol)
    ensures Worth(positions, prices, symbol) == qty * price
  {
  }

  lemma WantedOf(s: Snapshot, target: real, equity: real)
    requires equity == BookEquity(Book(s.cash, s.positions), s.prices)
    ensures WantedAt(s, target) == equity * target
  {
  }

  lemma QuietIs(s: Snapshot, symbol: string, target: real, band: real, qty: real, price: real, equity: real,
                current: real, wanted: real)
    requires qty == QuantityOf(s.positions, symbol) && price == PriceOf(s.prices, symbol)
    requires equity == BookEquity(Book(s.cash, s.positions), s.prices)
    requires current == qty * price && wanted == equity * target
    ensures RowQuiet(s, symbol, target, band) <==> Quiet(qty, price, s.cash, current, wanted, band)
  {
    hide BookEquity, QuantityOf, PriceOf, Quiet, Worth, WantedAt;
    WorthOf(s.positions, s.prices, symbol, qty, price);
    WantedOf(s, target, equity);
  }

  // ----- When the second run trades nothing -----

  ghost predicate TradesNothing(account: string, s: Snapshot, analysis: Analysis, band: real) {
    forall i :: 0 <= i < |analysis| ==> RowAt(account, s, analysis, band, i).decision.Hold?
  }

  /** The first run left the row short of its target, and by now there is enough to trade. */
  predicate Reopens(s: Snapshot, s2: Snapshot, analysis: Analysis, band: real, i: nat)
    requires i < |analysis|
  {
    LeftOpen(s, analysis, band, i) && !RowQuiet(s2, analysis[i].0, analysis[i].1.value, band)
  }

  ghost predicate NothingReopens(s: Snapshot, s2: Snapshot, analysis: Analysis, band: real) {
    forall i :: 0 <= i < |analysis| ==> !Reopens(s, s2, analysis, band, i)
  }

  /** What the rule says of a row on the snapshot itself. */
  predicate HeldAtStart(s: Snapshot, analysis: Analysis, band: real, i: nat)
    requires i < |analysis|
  {
    Choose(Book(s.cash, s.positions), s.prices, analysis[i].0, analysis[i].1, band).Hold?
  }

  /** As long as every row is held, each is decided on the snapshot. */
  lemma {:induction false} HeldBook(account: string, s: Snapshot, analysis: Analysis, band: real, n: nat)
    requires n <= |analysis|
    requires (forall j :: 0 <= j < n ==> HeldAtStart(s, analysis, band, j))
          || (forall j :: 0 <= j < n ==> RowAt(account, s, analysis, band, j).decision.Hold?)
    ensures BookAfter(s, analysis, band, n) == Book(s.cash, s.positions)
  {
    hide Choose;
    if n > 0 {
      HeldBook(account, s, analysis, band, n - 1);
      assert HeldAtStart(s, analysis, band, n - 1) || RowAt(account, s, analysis, band, n - 1).decision.Hold?;
    }
  }

  lemma NothingIffHeldAtStart(account: string, s: Snapshot, analysis: Analysis, band: real)
    ensures TradesNothing(account, s, analysis, band)
       <==> forall i :: 0 <= i < |analysis| ==> HeldAtStart(s, analysis, band, i)
  {
    hide Choose, BookAfter;
    if TradesNothing(account, s, analysis, band) {
      forall i | 0 <= i < |analysis|
        ensures HeldAtStart(s, analysis, band, i)
      {
        HeldBook(account, s, analysis, band, i);
        assert RowAt(account, s, analysis, band, i).decision.Hold?;
      }
    }
    if forall i :: 0 <= i < |analysis| ==> HeldAtStart(s, analysis, band, i) {
      forall i | 0 <= i < |analysis|
        ensures RowAt(account, s, analysis, band, i).decision.Hold?
      {
        HeldBook(account, s, analysis, band, i);
        assert HeldAtStart(s, analysis, band, i);
      }
    }
  }

  /** A symbol to leave is gone after the first run. */
  lemma LeftSymbolHolds(s: Snapshot, s2: Snapshot, analysis: Analysis, band: real, drift: real, i: nat)
    requires i < |analysis| && Sensible(s, analysis) && FollowsUp(s, s2, analysis, band, drift)
    requires analysis[i].1.Some? && analysis[i].1.value <= 0.0 && PriceOf(s.prices, analysis[i].0) != 0.0
    ensures HeldAtStart(s2, analysis, band, i)
  {
    hide BookAfter, BookEquity, Planned, QuantityOf, PriceOf, Adjust;
    var b := BookAfter(s, analysis, band, i);
    var symbol := analysis[i].0;
    PlanStaysSolvent(s, analysis, band, i);
    BooksDistinct(s, analysis, band, i);
    WorthWithinEquity(b, s.prices, symbol);
    NextBook(s, analysis, band, i);
    SymbolIsDone(s, analysis, band, i, |analysis|);
    var d, price := Choose(b, s.prices, symbol, analysis[i].1, band), PriceOf(s.prices, symbol);
    var qty := QuantityOf(b.positions, symbol);
    if qty > 0.0 {
      WorthOf(b.positions, s.prices, symbol, qty, price);
      StrictProduct(qty, price);
      PlannedPositions(b, symbol, price, d);
    } else {
      HoldKeeps(b, symbol, price);
    }
  }

  /** A row the first run did not leave open is held by the second. */
  lemma ClosedRowHolds(s: Snapshot, s2: Snapshot, analysis: Analysis, band: real, drift: real, i: nat)
    requires i < |analysis| && Sensible(s, analysis) && FollowsUp(s, s2, analysis, band, drift)
    requires AllFit(s, analysis, band, drift) && !LeftOpen(s, analysis, band, i)
    ensures HeldAtStart(s2, analysis, band, i) && !Reopens(s, s2, analysis, band, i)
  {
    hide Choose, BookAfter, RowQuiet, LeftOpen, PlanFits, QuantityOf, PriceOf;
    var (symbol, target) := analysis[i];
    if PriceOf(s.prices, symbol) == 0.0 || target.None? {
      Unpriced(s2, analysis, band, i);
    } else if target.value <= 0.0 {
      LeftSymbolHolds(s, s2, analysis, band, drift, i);
    } else {
      TradedRowStays(s, s2, analysis, band, drift, i);
      SecondSolvent(s, s2, analysis, band, drift);
      HoldsIffQuiet(s2, symbol, target, band);
    }
  }

  lemma Unpriced(s: Snapshot, analysis: Analysis, band: real, i: nat)
    requires i < |analysis| && (PriceOf(s.prices, analysis[i].0) == 0.0 || analysis[i].1.None?)
    ensures HeldAtStart(s, analysis, band, i)
  {
  }

  lemma SecondSolvent(s: Snapshot, s2: Snapshot, analysis: Analysis, band: real, drift: real)
    requires Sensible(s, analysis) && FollowsUp(s, s2, analysis, band, drift)
    ensures Solvent(Book(s2.cash, s2.positions)) && Distinct(s2.positions) && PricesOk(s2.prices)
  {
    hide BookAfter, QuantityOf;
    PlanStaysSolvent(s, analysis, band, |analysis|);
  }

  /** Planning again at the same prices trades nothing exactly when every row the first run left short of its target,
      held or limited by its cash, has become quiet: rows that did reach their target stay there, whatever the later
      rows, their fees and the ledger's roundings did to the account. */
  lemma RerunHoldsIff(account: string, s: Snapshot, s2: Snapshot, analysis: Analysis, band: real, drift: real)
    requires Sensible(s, analysis) && FollowsUp(s, s2, analysis, band, drift) && AllFit(s, analysis, band, drift)
    ensures TradesNothing(account, s2, analysis, band) <==> NothingReopens(s, s2, analysis, band)
  {
    hide Choose, BookAfter, RowQuiet, TradesNothing, PlanFits, Sensible, FollowsUp, AllFit, HeldAtStart, LeftOpen;
    NothingIffHeldAtStart(account, s2, analysis, band);
    forall i | 0 <= i < |analysis|
      ensures HeldAtStart(s2, analysis, band, i) <==> !Reopens(s, s2, analysis, band, i)
    {
      if LeftOpen(s, analysis, band, i) {
        OpenRowHoldsIff(s, s2, analysis, band, drift, i);
      } else {
        ClosedRowHolds(s, s2, analysis, band, drift, i);
      }
    }
  }

  lemma OpenRowHoldsIff(s: Snapshot, s2: Snapshot, analysis: Analysis, band: real, drift: real, i: nat)
    requires i < |analysis| && Sensible(s, analysis) && FollowsUp(s, s2, analysis, band, drift)
    requires LeftOpen(s, analysis, band, i)
    ensures HeldAtStart(s2, analysis, band, i) <==> !Reopens(s, s2, analysis, band, i)
  {
    hide Choose, BookAfter, RowQuiet, QuantityOf, PriceOf;
    SecondSolvent(s, s2, analysis, band, drift);
    HoldsIffQuiet(s2, analysis[i].0, analysis[i].1, band);
  }

  lemma {:induction false} ForeignBook(s: Snapshot, front: seq<Row>, more: seq<Row>, account: string)
    requires !Named(more, account)
    ensures BookFrom(s, front + more, account) == BookFrom(s, front, account)
  {
    if more == [] {
      assert front + more == front;
    } else {
      var m := more[..|more| - 1];
      assert !Named(m, account) && more[|more| - 1].account != account;
      ForeignBook(s, front, m, account);
      assert (front + more)[..|front + more| - 1] == front + m;
    }
  }

  /** The whole plan moves an account's book as its own rows do. */
  lemma {:induction false} PlanBook(analysis: Analysis, snapshots: Dict<string, Snapshot>, band: real, k: nat)
    requires k < |snapshots| && DistinctKeys(analysis) && DistinctKeys(snapshots)
    requires Solvent(Book(snapshots[k].1.cash, snapshots[k].1.positions))
    ensures BookFrom(snapshots[k].1, Plan(analysis, snapshots, band), snapshots[k].0)
         == BookAfter(snapshots[k].1, analysis, band, |analysis|)
  {
    hide Choose, Planned, SoundFor, BookAfter;
    var n := |snapshots| - 1;
    var front := Plan(analysis, snapshots[..n], band);
    var plan := AccountPlan(snapshots[n].0, snapshots[n].1, analysis, band);
    if k < n {
      PlanBook(analysis, snapshots[..n], band, k);
      assert !Named(plan, snapshots[k].0);
      ForeignBook(snapshots[k].1, front, plan, snapshots[k].0);
    } else {
      PlanNames(analysis, snapshots[..n], band, snapshots[n].0);
      SegmentSound(front, snapshots[n].0, snapshots[n].1, analysis, band, |analysis|);
      assert plan[..|analysis|] == plan;
    }
  }

  /** Any number of accounts: once the plan is filled and no order of an account was refused, a snapshot of its ledger
      follows up on the one that was planned from, with the drift of its applied orders. */
  lemma FilledPlanIsFollowedUp(start: Tables, analysis: Analysis, snapshots: Dict<string, Snapshot>, band: real,
                               serial: nat, k: nat, s2: Snapshot)
    requires k < |snapshots| && DistinctKeys(snapshots) && Sensible(snapshots[k].1, analysis)
    requires Matches(start, snapshots[k].1, snapshots[k].0) && FreshFrom(start, serial + 1)
    requires CleanIn(start, Plan(analysis, snapshots, band), serial, snapshots[k].0)
    requires Matches(FillAll(start, Plan(analysis, snapshots, band), serial), s2, snapshots[k].0)
    requires s2.prices == snapshots[k].1.prices && Distinct(s2.positions)
    ensures FollowsUp(snapshots[k].1, s2, analysis, band,
                      AppliedIn(start, Plan(analysis, snapshots, band), serial, snapshots[k].0) as real * TICK)
  {
    hide Plan, FillAll, AppliedIn, CleanIn, BookFrom, BookAfter, QuantityOf, Held;
    PlanTracksLedger(start, analysis, snapshots, band, serial, k);
    PlanBook(analysis, snapshots, band, k);
  }

  /** The job run twice: after a clean first run the second trades nothing in an account if and only if every row that
      was left short of its target has become quiet. */
  lemma SecondRunTradesNothingIff(start: Tables, analysis: Analysis, snapshots: Dict<string, Snapshot>, band: real,
                                  serial: nat, k: nat, s2: Snapshot)
    requires k < |snapshots| && DistinctKeys(snapshots) && Sensible(snapshots[k].1, analysis)
    requires Matches(start, snapshots[k].1, snapshots[k].0) && FreshFrom(start, serial + 1)
    requires CleanIn(start, Plan(analysis, snapshots, band), serial, snapshots[k].0)
    requires Matches(FillAll(start, Plan(analysis, snapshots, band), serial), s2, snapshots[k].0)
    requires s2.prices == snapshots[k].1.prices && Distinct(s2.positions)
    requires AllFit(snapshots[k].1, analysis, band,
                    AppliedIn(start, Plan(analysis, snapshots, band), serial, snapshots[k].0) as real * TICK)
    ensures TradesNothing(snapshots[k].0, s2, analysis, band)
       <==> NothingReopens(snapshots[k].1, s2, analysis, band)
  {
    hide Plan, FillAll, AppliedIn, CleanIn, Matches, Sensible, FollowsUp, AllFit, TradesNothing, NothingReopens;
    FilledPlanIsFollowedUp(start, analysis, snapshots, band, serial, k, s2);
    RerunHoldsIff(snapshots[k].0, snapshots[k].1, s2, analysis, band,
                  AppliedIn(start, Plan(analysis, snapshots, band), serial, snapshots[k].0) as real * TICK);
  }

  /** A purchase that had to stop for lack of cash finds more of it only if a later row sells. */
  lemma {:induction false} OnlySalesFreeCash(account: string, s: Snapshot, analysis: Analysis, band: real, i: nat,
                                             n: nat)
    requires i <= n <= |analysis| && Sensible(s, analysis)
    requires forall j :: i <= j < n ==>
      var d := RowAt(account, s, analysis, band, j).decision; d.Trade? ==> d.side.BUY?
    ensures BookAfter(s, analysis, band, n).cash <= BookAfter(s, analysis, band, i).cash
  {
    hide Choose, Planned, PriceOf;
    if i < n {
      OnlySalesFreeCash(account, s, analysis, band, i, n - 1);
      var b := BookAfter(s, analysis, band, n - 1);
      var (symbol, target) := analysis[n - 1];
      var d, price := RowAt(account, s, analysis, band, n - 1).decision, PriceOf(s.prices, symbol);
      if d.Trade? {
        ChooseSpends(b, s.prices, symbol, target, band);
        StrictProduct(price, d.quantity);
        PlannedCash(b, symbol, price, d, price * d.quantity);
      } else {
        HoldKeeps(b, symbol, price);
      }
    }
  }

  // ----- Two plans whose second run trades -----

  const FIRST := "A"
  const SECOND := "B"

  /** An account without cash whose purchase comes before the sale that pays for it. */
  const POOR := Snapshot(0.0, [(SECOND, 1.0)], map[SECOND := 100000.0, FIRST := 1000.0])
  const BUY_THEN_SELL: Analysis := [(FIRST, Some(0.5)), (SECOND, Some(0.0))]

  /** A holding just inside its band, and a large sale after it. */
  const BALANCED := Snapshot(0.0, [(FIRST, 599.99), (SECOND, 400.01)], map[FIRST := 1000.0, SECOND := 1000.0])
  const KEEP_THEN_SELL: Analysis := [(FIRST, Some(0.4)), (SECOND, Some(0.0))]

  lemma SumTwo(k: string, v: real, l: string, w: real, prices: Prices)
    ensures Sum([(k, v), (l, w)], ValueAt(prices)) == v * PriceOf(prices, k) + w * PriceOf(prices, l)
  {
    assert [(k, v), (l, w)][1..] == [(l, w)];
    SumOne(l, w, ValueAt(prices));
  }

  lemma SymbolsDiffer()
    ensures FIRST != SECOND
  {
    assert FIRST[0] != SECOND[0];
  }

  /** A row that reopens is traded by the second run. */
  lemma ReopenedRowTrades(account: string, s: Snapshot, s2: Snapshot, analysis: Analysis, band: real, drift: real,
                          i: nat)
    requires i < |analysis| && Sensible(s, analysis) && FollowsUp(s, s2, analysis, band, drift)
    requires Reopens(s, s2, analysis, band, i)
    ensures !TradesNothing(account, s2, analysis, band)
  {
    hide Choose, BookAfter, RowQuiet, TradesNothing, Sensible, FollowsUp, HeldAtStart, LeftOpen;
    OpenRowHoldsIff(s, s2, analysis, band, drift, i);
    NothingIffHeldAtStart(account, s2, analysis, band);
  }

  lemma PoorPlan(account: string, n: nat)
    requires n == |BUY_THEN_SELL|
    ensures LeftOpen(POOR, BUY_THEN_SELL, 0.5, n - 2)
    ensures RowAt(account, POOR, BUY_THEN_SELL, 0.5, n - 2).decision == Hold
    ensures RowAt(account, POOR, BUY_THEN_SELL, 0.5, n - 1).decision == Trade(SELL, 1.0)
    ensures BookAfter(POOR, BUY_THEN_SELL, 0.5, n) == Book(99950.0, [(SECOND, 0.0)])
  {
    hide RoundDown8;
    SymbolsDiffer();
    var b := Book(0.0, POOR.positions);
    SumOne(SECOND, 1.0, ValueAt(POOR.prices));
    assert BookEquity(b, POOR.prices) == 100000.0;
    assert BookAfter(POOR, BUY_THEN_SELL, 0.5, n - 2) == b;
    assert QuantityOf(b.positions, FIRST) == 0.0 && QuantityOf(b.positions, SECOND) == 1.0;
    assert Choose(b, POOR.prices, FIRST, Some(0.5), 0.5) == Hold;
    assert BookAfter(POOR, BUY_THEN_SELL, 0.5, n - 1) == b;
    assert Choose(b, POOR.prices, SECOND, Some(0.0), 0.5) == Trade(SELL, 1.0);
  }

  /** The first run has no cash to buy with; the sale after it brings the cash, and the second run buys. */
  lemma FreedCashReopens(account: string, s2: Snapshot)
    requires FollowsUp(POOR, s2, BUY_THEN_SELL, 0.5, TICK)
    ensures Sensible(POOR, BUY_THEN_SELL) && Reopens(POOR, s2, BUY_THEN_SELL, 0.5, 0)
    ensures !TradesNothing(account, s2, BUY_THEN_SELL, 0.5)
  {
    hide BookAfter, LeftOpen, RowAt, Worth, WantedAt;
    SymbolsDiffer();
    PoorPlan(account, |BUY_THEN_SELL|);
    var final: Dict<string, real> := [(SECOND, 0.0)];
    SumOne(SECOND, 0.0, ValueAt(POOR.prices));
    SameQuantitiesSameSum(s2.positions, final, POOR.prices);
    assert QuantityOf(s2.positions, FIRST) == 0.0;
    assert BookEquity(Book(s2.cash, s2.positions), s2.prices) == s2.cash;
    QuietIs(s2, FIRST, 0.5, 0.5, 0.0, 1000.0, s2.cash, 0.0, s2.cash * 0.5);
    OneHolding(POOR.positions, SECOND, 1.0);
    ReopenedRowTrades(account, POOR, s2, BUY_THEN_SELL, 0.5, TICK, 0);
  }

  lemma OneHolding(positions: Dict<string, real>, symbol: string, qty: real)
    requires positions == [(symbol, qty)] && qty >= 0.0
    ensures Distinct(positions) && forall k :: QuantityOf(positions, k) >= 0.0
  {
  }

  lemma BalancedPlan(account: string, n: nat)
    requires n == |KEEP_THEN_SELL|
    ensures LeftOpen(BALANCED, KEEP_THEN_SELL, 0.5, n - 2)
    ensures RowAt(account, BALANCED, KEEP_THEN_SELL, 0.5, n - 2).decision == Hold
    ensures RowAt(account, BALANCED, KEEP_THEN_SELL, 0.5, n - 1).decision == Trade(SELL, 400.01)
    ensures BookAfter(BALANCED, KEEP_THEN_SELL, 0.5, n) == Book(399809.995, [(FIRST, 599.99), (SECOND, 0.0)])
  {
    hide RoundDown8;
    SymbolsDiffer();
    var b := Book(0.0, BALANCED.positions);
    SumTwo(FIRST, 599.99, SECOND, 400.01, BALANCED.prices);
    TwoHoldings(BALANCED.positions, FIRST, 599.99, SECOND, 400.01);
    assert BookEquity(b, BALANCED.prices) == 1000000.0;
    assert BookAfter(BALANCED, KEEP_THEN_SELL, 0.5, n - 2) == b;
    BandIs(199990.0, 1000000.0, 0.4, 0.5, 400000.0);
    assert Choose(b, BALANCED.prices, FIRST, Some(0.4), 0.5) == Hold;
    assert BookAfter(BALANCED, KEEP_THEN_SELL, 0.5, n - 1) == b;
    assert Choose(b, BALANCED.prices, SECOND, Some(0.0), 0.5) == Trade(SELL, 400.01);
    assert Set(BALANCED.positions, SECOND, 0.0) == [(FIRST, 599.99), (SECOND, 0.0)];
  }

  lemma TwoHoldings(positions: Dict<string, real>, k: string, v: real, l: string, w: real)
    requires positions == [(k, v), (l, w)] && k != l && v >= 0.0 && w >= 0.0
    ensures Distinct(positions)
    ensures forall s :: QuantityOf(positions, s) == if s == k then v else if s == l then w else 0.0
  {
    assert positions[1..] == [(l, w)];
  }

  /** The first run holds a row inside its band; the fee of a later sale shrinks the account under it, and the second
      run sells. */
  lemma LaterFeesReopen(account: string, s2: Snapshot)
    requires FollowsUp(BALANCED, s2, KEEP_THEN_SELL, 0.5, TICK)
    ensures Sensible(BALANCED, KEEP_THEN_SELL) && Reopens(BALANCED, s2, KEEP_THEN_SELL, 0.5, 0)
    ensures !TradesNothing(account, s2, KEEP_THEN_SELL, 0.5)
  {
    hide BookAfter, LeftOpen, RowAt, Worth, WantedAt;
    SymbolsDiffer();
    BalancedPlan(account, |KEEP_THEN_SELL|);
    var final: Dict<string, real> := [(FIRST, 599.99), (SECOND, 0.0)];
    SumTwo(FIRST, 599.99, SECOND, 0.0, BALANCED.prices);
    TwoHoldings(final, FIRST, 599.99, SECOND, 0.0);
    SameQuantitiesSameSum(s2.positions, final, BALANCED.prices);
    var equity := s2.cash + 599990.0;
    assert BookEquity(Book(s2.cash, s2.positions), s2.prices) == equity;
    QuietIs(s2, FIRST, 0.4, 0.5, 599.99, 1000.0, equity, 599990.0, equity * 0.4);
    TwoHoldings(BALANCED.positions, FIRST, 599.99, SECOND, 400.01);
    ReopenedRowTrades(account, BALANCED, s2, KEEP_THEN_SELL, 0.5, TICK, 0);
  }
}
