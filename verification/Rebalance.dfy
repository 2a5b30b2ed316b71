/** The shared rebalancing rule: one order that moves a holding to its target weight, or nothing. */
module Rebalance {
  import opened Money
  import opened Schemas

  datatype Decision = Hold | Trade(side: Side, quantity: real)

  /** Largest quantity whose cost, fee and fee rounding included, fits the budget. */
  function AffordableQty(budget: real, price: real): real {
    if budget <= 0.0 || price <= 0.0 then 0.0
    else RoundDown8((budget - TICK) / (price * (1.0 + FEE_RATE)))
  }

  function Lesser(a: real, b: real): real { if b < a then b else a }

  /** The drift from the target, relative to the account, is inside the band. */
  predicate InBand(drift: real, equity: real, target: real, band: real)
    requires equity > 0.0
  {
    Magnitude(drift) / equity < band * target
  }

  function Decide(qty: real, price: real, cash: real, equity: real, target: real, band: real): Decision {
    if price <= 0.0 || equity <= 0.0 then Hold
    else if target <= 0.0 then (if qty > 0.0 then Trade(SELL, qty) else Hold)
    else Adjust(qty, price, cash, equity, target, band, qty * price, equity * target)
  }

  /** The part of the rule for a positive target, on the current and wanted value of the holding. */
  function Adjust(qty: real, price: real, cash: real, equity: real, target: real, band: real,
                  current: real, wanted: real): Decision
    requires price > 0.0 && equity > 0.0
  {
    if qty > 0.0 && InBand(current - wanted, equity, target, band) then Hold
    else if wanted > current then
      var budget := Lesser(wanted - current, cash);
      if budget < MIN_ORDER_KRW then Hold
      else
        var buy := AffordableQty(budget, price);
        if buy > 0.0 then Trade(BUY, buy) else Hold
    else if current - wanted < MIN_ORDER_KRW then Hold
    else
      var sell := Lesser(RoundDown8((current - wanted) / price), qty);
      if sell > 0.0 then Trade(SELL, sell) else Hold
  }

  lemma BuyMeans(qty: real, price: real, cash: real, equity: real, target: real, band: real,
                 current: real, wanted: real, q: real)
    requires price > 0.0 && equity > 0.0
    requires Adjust(qty, price, cash, equity, target, band, current, wanted) == Trade(BUY, q)
    ensures Lesser(wanted - current, cash) >= MIN_ORDER_KRW
    ensures q == AffordableQty(Lesser(wanted - current, cash), price) && q > 0.0
  {
    hide InBand, AffordableQty, RoundDown8;
  }

  lemma SellMeans(qty: real, price: real, cash: real, equity: real, target: real, band: real,
                  current: real, wanted: real, q: real)
    requires price > 0.0 && equity > 0.0
    requires Adjust(qty, price, cash, equity, target, band, current, wanted) == Trade(SELL, q)
    ensures current - wanted >= MIN_ORDER_KRW
    ensures q == Lesser(RoundDown8((current - wanted) / price), qty) && q > 0.0
  {
    hide InBand, AffordableQty, RoundDown8;
  }

  // ----- What one decision spends -----

  lemma Divide(x: real, d: real, q: real)
    requires d > 0.0 && q <= x / d < q + LOT
    ensures q * d <= x < q * d + LOT * d
  {
    QuotientBound(x, d, q);
    QuotientBound(x, d, q + LOT);
    assert (q + LOT) * d == q * d + LOT * d;
  }

  /** The sized value v with its exact fee leaves one tick of the budget free, and wastes less than a lot. */
  lemma Sizing(budget: real, price: real, q: real, v: real)
    requires budget >= MIN_ORDER_KRW && price > 0.0 && q == AffordableQty(budget, price) && v == price * q
    ensures 0.0 <= v && v + FEE_RATE * v <= budget - TICK
    ensures budget - TICK < v + FEE_RATE * v + (price * LOT) * (1.0 + FEE_RATE)
  {
    var d := price * (1.0 + FEE_RATE);
    QuotientBound(budget - TICK, d, 0.0);
    Divide(budget - TICK, d, q);
    ProductSign(price, q);
    assert q * d == price * q + FEE_RATE * (price * q);
    assert LOT * d == (price * LOT) * (1.0 + FEE_RATE);
  }

  /** Every BUY: the cost with the quantized fee fits the cash it was sized against, half a tick to spare. */
  lemma BuyFitsCash(qty: real, price: real, cash: real, equity: real, target: real, band: real)
    requires Decide(qty, price, cash, equity, target, band).Trade?
    requires Decide(qty, price, cash, equity, target, band).side.BUY?
    ensures var q := Decide(qty, price, cash, equity, target, band).quantity;
      q > 0.0 && price > 0.0
      && price * q * (1.0 + FEE_RATE) <= cash - TICK && price * q + Fee(price, q) <= cash - HALF_TICK
  {
    hide AffordableQty, Adjust, Fee;
    var d := Decide(qty, price, cash, equity, target, band);
    BuyMeans(qty, price, cash, equity, target, band, qty * price, equity * target, d.quantity);
    Sizing(Lesser(equity * target - qty * price, cash), price, d.quantity, price * d.quantity);
    FeeOf(price, d.quantity, price * d.quantity);
  }

  lemma FeeOf(price: real, quantity: real, value: real)
    requires value == price * quantity
    ensures FEE_RATE * value - HALF_TICK <= Fee(price, quantity) <= FEE_RATE * value + HALF_TICK
    ensures value >= 0.0 ==> Fee(price, quantity) >= 0.0
  {
    assert price * quantity * FEE_RATE == FEE_RATE * value;
  }

  /** Every SELL is of a positive quantity that is held. */
  lemma SellIsHeld(qty: real, price: real, cash: real, equity: real, target: real, band: real)
    requires Decide(qty, price, cash, equity, target, band).Trade?
    requires Decide(qty, price, cash, equity, target, band).side.SELL?
    ensures price > 0.0 && 0.0 < Decide(qty, price, cash, equity, target, band).quantity <= qty
  {
  }

  // ----- One order reaches the target -----

  /** One lot is worth at most MIN_ORDER_KRW * (1 - FEE_RATE / (band * (1 - FEE_RATE))). */
  predicate LotFits(lot: real, band: real) {
    band > 0.0 && lot * (band * (1.0 - FEE_RATE)) <= MIN_ORDER_KRW * (band * (1.0 - FEE_RATE) - FEE_RATE)
  }

  lemma BandIs(drift: real, equity: real, target: real, band: real, wanted: real)
    requires equity > 0.0 && wanted == equity * target
    ensures InBand(drift, equity, target, band) <==> Magnitude(drift) < band * wanted
  {
    assert band * target * equity == band * wanted;
    QuotientBound(Magnitude(drift), equity, band * target);
  }

  /** Too little to trade between the holding and its target: nothing to buy, nothing to sell. */
  predicate AfterGap(current: real, wanted: real, cash: real, band: real) {
    var gap := wanted - current;
    if gap > 0.0 then Lesser(gap, cash) < MIN_ORDER_KRW || gap < band * wanted
    else -gap < MIN_ORDER_KRW || -gap < band * wanted
  }

  /** Where lots fit, the band is worth more than the fee, and lots stay below the minimum order by a fee on it. */
  lemma FitMeans(lot: real, band: real)
    requires lot > 0.0 && LotFits(lot, band)
    ensures band * (1.0 - FEE_RATE) >= FEE_RATE
    ensures band < 1.0 ==> lot * (1.0 - FEE_RATE) <= MIN_ORDER_KRW * (1.0 - 2.0 * FEE_RATE)
  {
    var share := band * (1.0 - FEE_RATE);
    ProductSign(lot, share);
    if band < 1.0 {
      var most := MIN_ORDER_KRW * (1.0 - 2.0 * FEE_RATE) / (1.0 - FEE_RATE);
      assert MIN_ORDER_KRW * (share - FEE_RATE) <= most * share;
      FitBelow(lot, share, most);
    }
  }

  lemma FitBelow(lot: real, share: real, most: real)
    requires share >= FEE_RATE && lot * share <= MIN_ORDER_KRW * (share - FEE_RATE)
    requires MIN_ORDER_KRW * (share - FEE_RATE) <= most * share
    ensures lot <= most
  {
    CancelFactor(lot, most, share);
  }

  lemma CancelFactor(x: real, y: real, s: real)
    requires s > 0.0
    ensures x * s <= y * s ==> x <= y
    ensures x * s < y * s ==> x < y
  {
    if x > y {
      StrictProduct(x - y, s);
    }
  }

  /** Sized on the gap itself: what is left is fee and lot, and both are too small for the band and the minimum. */
  lemma GapTooSmall(current: real, wanted: real, v: real, ft: real, lot: real, band: real)
    requires current >= 0.0 && lot > 0.0 && band < 1.0 && LotFits(lot, band) && ft >= 0.0
    requires wanted - current - TICK < v + FEE_RATE * v + lot * (1.0 + FEE_RATE)
    ensures var left := wanted - ft - current - v; left < MIN_ORDER_KRW || left < band * (wanted - ft)
  {
    var left, paid := wanted - ft - current - v, wanted - current - ft;
    if left >= MIN_ORDER_KRW {
      FitMeans(lot, band);
      ProductSign(band, current);
      assert band * (wanted - ft) == band * paid + band * current;
      GapArithmetic(left, paid, lot, band, band * left, band * paid, band * lot);
    }
  }

  lemma GapArithmetic(left: real, paid: real, lot: real, band: real, bandLeft: real, bandPaid: real, bandLot: real)
    requires 0.0 < band < 1.0 && band * (1.0 - FEE_RATE) >= FEE_RATE && left >= MIN_ORDER_KRW
    requires bandLeft == band * left && bandPaid == band * paid && bandLot == band * lot
    requires bandLot * (1.0 - FEE_RATE) <= MIN_ORDER_KRW * (band * (1.0 - FEE_RATE) - FEE_RATE)
    requires (1.0 + FEE_RATE) * left < FEE_RATE * paid + TICK + (1.0 + FEE_RATE) * lot
    ensures left < bandPaid
  {
    StrictProduct(band, FEE_RATE * paid + TICK + (1.0 + FEE_RATE) * lot - (1.0 + FEE_RATE) * left);
    assert band * (FEE_RATE * paid + TICK + (1.0 + FEE_RATE) * lot - (1.0 + FEE_RATE) * left)
           == FEE_RATE * bandPaid + TICK * band + (1.0 + FEE_RATE) * bandLot - (1.0 + FEE_RATE) * bandLeft;
    ProductSign(left - MIN_ORDER_KRW, (1.0 + FEE_RATE) * band - FEE_RATE);
    assert (left - MIN_ORDER_KRW) * ((1.0 + FEE_RATE) * band - FEE_RATE)
           == (1.0 + FEE_RATE) * bandLeft - FEE_RATE * left - MIN_ORDER_KRW * ((1.0 + FEE_RATE) * band - FEE_RATE);
  }

  lemma WideBand(wanted: real, left: real, band: real)
    requires band >= 1.0 && left < wanted && wanted > 0.0
    ensures left < band * wanted
  {
    ProductSign(band - 1.0, wanted);
    assert (band - 1.0) * wanted == band * wanted - wanted;
  }

  /** What a purchase of value v with fee f leaves: still below the new target, by a gap too small to trade. */
  lemma AfterBuy(current: real, wanted: real, cash: real, v: real, f: real, ft: real, lot: real, band: real)
    requires current >= 0.0 && lot > 0.0 && LotFits(lot, band) && 0.0 <= ft <= f && v > 0.0
    requires FEE_RATE * v - HALF_TICK <= f <= FEE_RATE * v + HALF_TICK
    requires var budget := Lesser(wanted - current, cash);
      && budget >= MIN_ORDER_KRW && v + FEE_RATE * v <= budget - TICK
      && budget - TICK < v + FEE_RATE * v + lot * (1.0 + FEE_RATE)
    ensures current + v < wanted - ft && AfterGap(current + v, wanted - ft, cash - v - f, band)
  {
    hide LotFits;
    FitMeans(lot, band);
    if band >= 1.0 {
      WideBand(wanted - ft, wanted - ft - current - v, band);
    } else if wanted - current <= cash {
      GapTooSmall(current, wanted, v, ft, lot, band);
    }
  }

  /** The target's share of a sale's fee is at most the fee rate on the target, save where the sale leaves next to
      nothing above a target of a few jeon. */
  lemma SaleFeeShare(sold: real, wanted: real, excess: real, target: real, equity: real, f: real, ft: real)
    requires 0.0 <= target <= 1.0 && wanted == equity * target && ft == f * target && wanted > 0.0
    requires excess + wanted <= equity && sold <= excess && 0.0 <= f <= FEE_RATE * sold + HALF_TICK
    ensures 0.0 <= ft <= FEE_RATE * wanted + HALF_TICK
    ensures excess - sold + wanted >= 0.1 ==> ft <= FEE_RATE * wanted
  {
    var slack := FEE_RATE * equity + HALF_TICK - f;
    ProductSign(f, target);
    ProductSign(slack, target);
    assert slack * target == FEE_RATE * wanted + HALF_TICK * target - ft;
    if excess - sold + wanted >= 0.1 {
      ProductSign(slack - HALF_TICK, target);
      assert (slack - HALF_TICK) * target == slack * target - HALF_TICK * target;
    }
  }

  /** A target big enough for the rate: its share of the fee and the unsold part of a lot stay inside band or
      minimum. */
  lemma RestTooSmall(unsold: real, wanted: real, ft: real, lot: real, band: real)
    requires lot > 0.0 && LotFits(lot, band) && 0.0 <= unsold < lot && 0.0 <= ft <= FEE_RATE * wanted
    ensures unsold + ft < MIN_ORDER_KRW || unsold + ft < band * (wanted - ft)
  {
    if unsold + ft >= MIN_ORDER_KRW {
      FitMeans(lot, band);
      RestArithmetic(unsold + ft, wanted - ft, ft, lot, band, band * (1.0 - FEE_RATE), band * (wanted - ft));
    }
  }

  lemma RestArithmetic(left: real, kept: real, ft: real, lot: real, band: real, share: real, bandKept: real)
    requires band >= 0.0 && share == band * (1.0 - FEE_RATE) && share >= FEE_RATE && bandKept == band * kept
    requires left < lot + ft && (1.0 - FEE_RATE) * ft <= FEE_RATE * kept && left >= MIN_ORDER_KRW
    requires lot * share <= MIN_ORDER_KRW * (share - FEE_RATE)
    ensures left < bandKept
  {
    var shareFt, shareLeft, shareLot := share * ft, share * left, lot * share;
    ProductSign(band, FEE_RATE * kept - (1.0 - FEE_RATE) * ft);
    assert band * (FEE_RATE * kept - (1.0 - FEE_RATE) * ft) == FEE_RATE * bandKept - shareFt;
    StrictProduct(share, lot + ft - left);
    assert share * (lot + ft - left) == shareLot + shareFt - shareLeft;
    ProductSign(left - MIN_ORDER_KRW, share - FEE_RATE);
    assert (left - MIN_ORDER_KRW) * (share - FEE_RATE)
           == shareLeft - FEE_RATE * left - MIN_ORDER_KRW * (share - FEE_RATE);
  }

  /** What a sale leaves: never below the old target, and above the new one by too little to trade. */
  lemma AfterSell(current: real, wanted: real, cash: real, v: real, ft: real, lot: real, band: real)
    requires wanted > 0.0 && lot > 0.0 && LotFits(lot, band) && v <= current - wanted < v + lot
    requires 0.0 <= ft <= FEE_RATE * wanted + HALF_TICK
    requires current - v >= 0.1 ==> ft <= FEE_RATE * wanted
    ensures current - v >= wanted && AfterGap(current - v, wanted - ft, cash, band)
  {
    hide LotFits;
    if ft <= FEE_RATE * wanted {
      FitMeans(lot, band);
      RestTooSmall(current - v - wanted, wanted, ft, lot, band);
    }
  }

  lemma SellSizing(qty: real, price: real, current: real, excess: real, q: real, v: real)
    requires price > 0.0 && current == qty * price && 0.0 <= excess <= current
    requires q == Lesser(RoundDown8(excess / price), qty) && v == price * q
    ensures 0.0 <= v <= excess < v + price * LOT
  {
    QuotientBound(excess, price, 0.0);
    QuotientBound(excess, price, qty);
    Divide(excess, price, RoundDown8(excess / price));
    ProductSign(q, price);
  }

  lemma ShareOf(f: real, target: real, ft: real)
    requires f >= 0.0 && 0.0 <= target <= 1.0 && ft == f * target
    ensures 0.0 <= ft <= f
  {
    ProductSign(f, target);
    ProductSign(f, 1.0 - target);
    assert f * (1.0 - target) == f - f * target;
  }

  /** Within the band, or short of a tradable amount: the rule holds. */
  lemma Settles(qty: real, price: real, cash: real, equity: real, target: real, band: real,
                current: real, wanted: real)
    requires price > 0.0 && target > 0.0 && qty > 0.0
    requires current == qty * price && wanted == equity * target && AfterGap(current, wanted, cash, band)
    ensures Decide(qty, price, cash, equity, target, band) == Hold
  {
    hide InBand, AffordableQty, RoundDown8;
    if equity > 0.0 {
      BandIs(current - wanted, equity, target, band, wanted);
    }
  }

  lemma BuyConverges(qty: real, price: real, cash: real, equity: real, target: real, band: real, q: real,
                     current: real, wanted: real, v: real, f: real, ft: real)
    requires qty >= 0.0 && price > 0.0 && equity > 0.0 && 0.0 < target <= 1.0
    requires LotFits(price * LOT, band)
    requires current >= 0.0 && v == price * q && f == Fee(price, q) && ft == f * target
    requires Adjust(qty, price, cash, equity, target, band, current, wanted) == Trade(BUY, q)
    ensures q > 0.0
    ensures AfterGap(current + v, wanted - ft, cash - v - f, band) && current + v < wanted - ft
  {
    hide AffordableQty, Adjust, Fee, LotFits, AfterGap;
    BuyMeans(qty, price, cash, equity, target, band, current, wanted, q);
    Sizing(Lesser(wanted - current, cash), price, q, v);
    StrictProduct(price, q);
    FeeOf(price, q, v);
    ShareOf(f, target, ft);
    AfterBuy(current, wanted, cash, v, f, ft, price * LOT, band);
  }

  lemma SellConverges(qty: real, price: real, cash: real, equity: real, target: real, band: real, q: real,
                      current: real, wanted: real, v: real, f: real, ft: real)
    requires qty >= 0.0 && price > 0.0 && equity > 0.0 && 0.0 < target <= 1.0
    requires LotFits(price * LOT, band)
    requires current == qty * price <= equity && wanted == equity * target && wanted > 0.0
    requires v == price * q && f == Fee(price, q) && ft == f * target
    requires Adjust(qty, price, cash, equity, target, band, current, wanted) == Trade(SELL, q)
    ensures current - v >= wanted
    ensures AfterGap(current - v, wanted - ft, cash + v - f, band)
  {
    hide RoundDown8, Adjust, Fee, LotFits, AfterGap;
    SellMeans(qty, price, cash, equity, target, band, current, wanted, q);
    SellSizing(qty, price, current, current - wanted, q, v);
    FeeOf(price, q, v);
    SaleFeeShare(v, wanted, current - wanted, target, equity, f, ft);
    AfterSell(current, wanted, cash + v - f, v, ft, price * LOT, band);
  }

  /** The account after an order of side and quantity filled at the same price with the quantized fee. */
  datatype Account = Account(qty: real, cash: real, others: real)

  function Equity(a: Account, price: real): real { a.cash + a.others + a.qty * price }

  function Filled(a: Account, price: real, d: Decision): Account
    requires d.Trade?
  {
    if d.side.BUY? then a.(qty := a.qty + d.quantity, cash := a.cash - price * d.quantity - Fee(price, d.quantity))
    else a.(qty := a.qty - d.quantity, cash := a.cash + price * d.quantity - Fee(price, d.quantity))
  }

  function DecideFor(a: Account, price: real, target: real, band: real): Decision {
    Decide(a.qty, price, a.cash, Equity(a, price), target, band)
  }

  predicate NothingOwed(a: Account) {
    a.qty >= 0.0 && a.cash >= 0.0 && a.others >= 0.0
  }

  lemma FilledValues(a: Account, price: real, d: Decision, v: real, f: real)
    requires d.Trade? && v == price * d.quantity && f == Fee(price, d.quantity)
    ensures Equity(Filled(a, price, d), price) == Equity(a, price) - f
    ensures Filled(a, price, d).qty * price == if d.side.BUY? then a.qty * price + v else a.qty * price - v
  {
    hide Fee;
    assert (a.qty + d.quantity) * price == a.qty * price + price * d.quantity;
    assert (a.qty - d.quantity) * price == a.qty * price - price * d.quantity;
  }

  /** Re-running the rule right after its order filled trades nothing: one order reaches the target,
      and no order overshoots the target value it aimed at. */
  lemma OneOrderConverges(a: Account, price: real, target: real, band: real)
    requires NothingOwed(a) && target <= 1.0
    requires LotFits(price * LOT, band)
    requires DecideFor(a, price, target, band).Trade?
    ensures var d := DecideFor(a, price, target, band);
      var b := Filled(a, price, d);
      && DecideFor(b, price, target, band) == Hold
      && (target > 0.0 && d.side.BUY? ==> b.qty * price < Equity(b, price) * target)
      && (target > 0.0 && d.side.SELL? ==> b.qty * price >= Equity(a, price) * target)
  {
    hide Adjust, Fee, LotFits;
    var d := DecideFor(a, price, target, band);
    if target > 0.0 {
      var equity, q := Equity(a, price), d.quantity;
      var f := Fee(price, q);
      DecideIs(a.qty, price, a.cash, equity, target, band, a.qty * price, equity * target);
      TargetConverges(a, price, target, band, d, equity, a.qty * price, equity * target, price * q, f, f * target);
    }
  }

  lemma DecideIs(qty: real, price: real, cash: real, equity: real, target: real, band: real,
                 current: real, wanted: real)
    requires target > 0.0 && Decide(qty, price, cash, equity, target, band).Trade?
    requires current == qty * price && wanted == equity * target
    ensures price > 0.0 && equity > 0.0
    ensures Decide(qty, price, cash, equity, target, band)
            == Adjust(qty, price, cash, equity, target, band, current, wanted)
  {
  }

  lemma LessFee(equity: real, f: real, target: real, wanted: real, ft: real)
    requires wanted == equity * target && ft == f * target
    ensures (equity - f) * target == wanted - ft
  {
  }

  lemma PositiveFactor(qty: real, price: real, value: real)
    requires price > 0.0 && value == qty * price && value > 0.0
    ensures qty > 0.0
  {
    if qty <= 0.0 {
      ProductSign(-qty, price);
    }
  }

  lemma TargetConverges(a: Account, price: real, target: real, band: real, d: Decision, equity: real,
                        current: real, wanted: real, v: real, f: real, ft: real)
    requires NothingOwed(a) && 0.0 < target <= 1.0
    requires LotFits(price * LOT, band) && price > 0.0 && equity > 0.0
    requires equity == Equity(a, price) && current == a.qty * price && wanted == equity * target && d.Trade?
    requires d == Adjust(a.qty, price, a.cash, equity, target, band, current, wanted)
    requires v == price * d.quantity && f == Fee(price, d.quantity) && ft == f * target
    ensures var b := Filled(a, price, d);
      && DecideFor(b, price, target, band) == Hold
      && (d.side.BUY? ==> b.qty * price < Equity(b, price) * target)
      && (d.side.SELL? ==> b.qty * price >= wanted)
  {
    hide Adjust, Fee, Decide, AfterGap, Equity, LotFits;
    var b := Filled(a, price, d);
    var current' := if d.side.BUY? then current + v else current - v;
    NonNegativeHolding(a, price, equity);
    FilledValues(a, price, d, v, f);
    LessFee(equity, f, target, wanted, ft);
    StrictProduct(equity, target);
    if d.side.BUY? {
      BuyConverges(a.qty, price, a.cash, equity, target, band, d.quantity, current, wanted, v, f, ft);
    } else {
      SellConverges(a.qty, price, a.cash, equity, target, band, d.quantity, current, wanted, v, f, ft);
      PositiveFactor(b.qty, price, current');
    }
    Settles(b.qty, price, b.cash, equity - f, target, band, current', wanted - ft);
  }

  lemma NonNegativeHolding(a: Account, price: real, equity: real)
    requires NothingOwed(a) && price > 0.0 && equity == Equity(a, price)
    ensures 0.0 <= a.qty * price <= equity
  {
    ProductSign(a.qty, price);
  }

  // ----- Above the bound, some account sells twice -----

  /** A target value whose fee share lifts the excess left by a sale above the minimum and the band. */
  lemma PickWanted(lot: real, band: real) returns (wanted: real)
    requires lot > 0.0 && band >= 0.0 && !LotFits(lot, band)
    ensures wanted > 0.0 && lot + FEE_RATE * wanted > MIN_ORDER_KRW
    ensures lot + FEE_RATE * wanted > band * (1.0 - FEE_RATE) * wanted
  {
    var share := band * (1.0 - FEE_RATE);
    var least := if lot < MIN_ORDER_KRW then (MIN_ORDER_KRW - lot) / FEE_RATE else 0.0;
    if share <= FEE_RATE {
      wanted := least + 1.0;
      ProductSign(FEE_RATE - share, wanted);
      assert (FEE_RATE - share) * wanted == FEE_RATE * wanted - share * wanted;
    } else {
      var most := QuotientOf(lot, share - FEE_RATE);
      if lot < MIN_ORDER_KRW {
        LeastBelowMost(lot, share, share - FEE_RATE, least, most);
      }
      wanted := (least + most) / 2.0;
      BelowMost(lot, share, share - FEE_RATE, most, wanted);
    }
  }

  lemma LeastBelowMost(lot: real, share: real, slope: real, least: real, most: real)
    requires slope > 0.0 && slope == share - FEE_RATE && most * slope == lot
    requires lot < MIN_ORDER_KRW && least == 2000.0 * (MIN_ORDER_KRW - lot)
    requires lot * share > MIN_ORDER_KRW * slope
    ensures least < most
  {
    assert (MIN_ORDER_KRW - lot) * slope == MIN_ORDER_KRW * slope - (lot * share - FEE_RATE * lot);
    assert least * slope == 2000.0 * ((MIN_ORDER_KRW - lot) * slope);
    assert least * slope < most * slope;
    CancelFactor(least, most, slope);
  }

  lemma BelowMost(lot: real, share: real, slope: real, most: real, wanted: real)
    requires slope > 0.0 && slope == share - FEE_RATE && most * slope == lot && wanted < most
    ensures lot + FEE_RATE * wanted > share * wanted
  {
    StrictProduct(most - wanted, slope);
    assert (most - wanted) * slope == most * slope - slope * wanted;
    assert slope * wanted == share * wanted - FEE_RATE * wanted;
  }

  lemma Archimedes(least: real, lot: real) returns (n: nat)
    requires lot > 0.0
    ensures n >= 1 && n as real * lot >= least
  {
    var k := (least / lot).Floor + 1;
    n := if k >= 1 then k else 1;
    assert n as real >= least / lot;
    QuotientBound(least, lot, n as real);
  }

  /** A sale of n whole lots: the excess lies less than a lot above them. */
  lemma WholeLots(excess: real, price: real, n: nat)
    requires price > 0.0 && n as real * (price * LOT) <= excess < (n + 1) as real * (price * LOT)
    ensures RoundDown8(excess / price) == n as real * LOT
  {
    var x := excess / price;
    var y := x * 100000000.0;
    var lot := price * LOT;
    assert y * lot == excess;
    QuotientBound(excess, lot, n as real);
    QuotientBound(excess, lot, (n + 1) as real);
    assert y == excess / lot by {
      QuotientBound(excess, lot, y);
    }
    assert y.Floor == n;
    ProductSign(n as real, lot);
    QuotientBound(excess, price, 0.0);
  }

  lemma LotsWorth(price: real, n: nat)
    ensures price * (n as real * LOT) == n as real * (price * LOT)
  {
  }

  /** An excess of at least one lot, outside the band and worth the minimum order, is sold. */
  lemma ExcessIsSold(qty: real, price: real, cash: real, equity: real, target: real, band: real,
                     current: real, wanted: real)
    requires price > 0.0 && equity > 0.0 && target > 0.0 && qty > 0.0
    requires current == qty * price && wanted == equity * target
    requires current - wanted >= MIN_ORDER_KRW && current - wanted >= band * wanted && current - wanted >= price * LOT
    ensures Decide(qty, price, cash, equity, target, band)
            == Trade(SELL, Lesser(RoundDown8((current - wanted) / price), qty))
  {
    BandIs(current - wanted, equity, target, band, wanted);
    QuotientBound(current - wanted, price, LOT);
  }

  lemma FeeShareNear(v: real, lot: real, wanted: real, f: real, slack: real, total: real, ft: real)
    requires lot > 0.0 && wanted > 0.0 && 0.0 < slack <= FEE_RATE * wanted && slack <= lot
    requires total == v + lot - slack + wanted && ft * total == f * wanted && v >= MIN_ORDER_KRW
    requires f >= FEE_RATE * v - HALF_TICK
    requires v * slack >= HALF_TICK * wanted + FEE_RATE * wanted * (lot + wanted)
    ensures ft >= FEE_RATE * wanted - slack
  {
    var goal := FEE_RATE * wanted - slack;
    ProductSign(f - FEE_RATE * v + HALF_TICK, wanted);
    assert (f - FEE_RATE * v + HALF_TICK) * wanted == f * wanted - FEE_RATE * (v * wanted) + HALF_TICK * wanted;
    assert goal * total == FEE_RATE * (v * wanted) + FEE_RATE * wanted * (lot + wanted) - FEE_RATE * wanted * slack
                           - slack * total;
    ProductSign(total - v, slack);
    assert (total - v) * slack == slack * total - v * slack;
    ProductSign(FEE_RATE * wanted, slack);
    CancelFactor(goal, ft, total);
  }

  /** Enough slack to keep the second excess above the minimum, the lot and the band. */
  function SlackFor(lot: real, wanted: real, band: real): real
    requires band >= 0.0
  {
    var atMinimum := lot + FEE_RATE * wanted - MIN_ORDER_KRW;
    var atBand := (lot + FEE_RATE * wanted - band * (1.0 - FEE_RATE) * wanted) / (2.0 + band);
    Lesser(Lesser(atMinimum, atBand), Lesser(FEE_RATE * wanted, lot)) / 4.0
  }

  lemma SlackIsEnough(lot: real, wanted: real, band: real, ft: real)
    requires lot > 0.0 && wanted > 0.0 && band >= 0.0 && lot + FEE_RATE * wanted > MIN_ORDER_KRW
    requires lot + FEE_RATE * wanted > band * (1.0 - FEE_RATE) * wanted
    ensures var slack := SlackFor(lot, wanted, band);
      && 0.0 < slack < lot && slack <= FEE_RATE * wanted
      && (ft >= FEE_RATE * wanted - slack ==>
            && lot - slack + ft >= MIN_ORDER_KRW && lot - slack + ft >= lot
            && lot - slack + ft >= band * (wanted - ft))
  {
    var slack := SlackFor(lot, wanted, band);
    var room := lot + FEE_RATE * wanted - band * (1.0 - FEE_RATE) * wanted;
    StrictQuotient(room, 2.0 + band);
    QuotientBound(room, 2.0 + band, 4.0 * slack);
    if ft >= FEE_RATE * wanted - slack {
      BandSlack(lot, wanted, band, slack, ft, band * wanted, band * slack, band * ft);
    }
  }

  lemma BandSlack(lot: real, wanted: real, band: real, slack: real, ft: real,
                  bandWanted: real, bandSlack: real, bandFt: real)
    requires band >= 0.0 && slack > 0.0
    requires bandWanted == band * wanted && bandSlack == band * slack && bandFt == band * ft
    requires 4.0 * slack * (2.0 + band) <= lot + FEE_RATE * wanted - band * (1.0 - FEE_RATE) * wanted
    requires ft >= FEE_RATE * wanted - slack
    ensures lot - slack + ft >= band * (wanted - ft)
  {
    assert band * (1.0 - FEE_RATE) * wanted == (1.0 - FEE_RATE) * bandWanted;
    assert 4.0 * slack * (2.0 + band) == 8.0 * slack + 4.0 * bandSlack;
    ProductSign(band, slack);
    ProductSign(band, ft - FEE_RATE * wanted + slack);
    assert band * (ft - FEE_RATE * wanted + slack) == bandFt - FEE_RATE * bandWanted + bandSlack;
    assert band * (wanted - ft) == bandWanted - bandFt;
  }

  lemma QuotientOf(x: real, d: real) returns (q: real)
    requires d > 0.0
    ensures q * d == x && (x > 0.0 ==> q > 0.0) && (x <= d ==> q <= 1.0)
  {
    q := x / d;
    QuotientBound(x, d, 1.0);
  }

  lemma StrictQuotient(x: real, d: real)
    requires x > 0.0 && d > 0.0
    ensures x / d > 0.0
  {
    assert (x / d) * d == x;
  }

  lemma Greater3(x: real, y: real, z: real) returns (m: real)
    ensures m >= x && m >= y && m >= z
  {
    m := if x >= y && x >= z then x else if y >= z then y else z;
  }

  /** The account: nothing but the holding, worth n lots and most of another above its target. */
  lemma SellsAgain(price: real, band: real) returns (a: Account, target: real)
    requires price > 0.0 && band >= 0.0 && !LotFits(price * LOT, band)
    ensures NothingOwed(a) && 0.0 < target <= 1.0 && DecideFor(a, price, target, band).Trade?
    ensures DecideFor(Filled(a, price, DecideFor(a, price, target, band)), price, target, band).Trade?
  {
    hide LotFits, SlackFor;
    var lot := price * LOT;
    var wanted := PickWanted(lot, band);
    SlackIsEnough(lot, wanted, band, 0.0);
    var slack := SlackFor(lot, wanted, band);
    var need := HALF_TICK * wanted + FEE_RATE * wanted * (lot + wanted);
    var least := Greater3(MIN_ORDER_KRW, band * wanted, need / slack);
    var n := Archimedes(least, lot);
    var v := n as real * lot;
    QuotientBound(need, slack, v);
    a, target := SellsTwice(price, band, lot, wanted, slack, n, v);
  }

  /** A target value with its slack, and enough whole lots above it. */
  predicate Prepared(band: real, lot: real, wanted: real, slack: real, n: nat, v: real) {
    band >= 0.0 && lot > 0.0 && wanted > 0.0 && slack == SlackFor(lot, wanted, band)
    && lot + FEE_RATE * wanted > MIN_ORDER_KRW && lot + FEE_RATE * wanted > band * (1.0 - FEE_RATE) * wanted
    && n >= 1 && v == n as real * lot && v >= MIN_ORDER_KRW && v >= band * wanted
    && v * slack >= HALF_TICK * wanted + FEE_RATE * wanted * (lot + wanted)
  }

  lemma SlackInRange(band: real, lot: real, wanted: real, slack: real, n: nat, v: real)
    requires Prepared(band, lot, wanted, slack, n, v)
    ensures 0.0 < slack < lot && wanted > 0.0 && n >= 1
    ensures v == n as real * lot && v >= MIN_ORDER_KRW && v >= band * wanted
  {
    hide SlackFor;
    SlackIsEnough(lot, wanted, band, 0.0);
  }

  lemma SellsTwice(price: real, band: real, lot: real, wanted: real, slack: real, n: nat, v: real)
    returns (a: Account, target: real)
    requires price > 0.0 && band >= 0.0 && lot == price * LOT && Prepared(band, lot, wanted, slack, n, v)
    ensures NothingOwed(a) && 0.0 < target <= 1.0 && DecideFor(a, price, target, band).Trade?
    ensures DecideFor(Filled(a, price, DecideFor(a, price, target, band)), price, target, band).Trade?
  {
    hide Prepared, Fee, Decide, Filled;
    SlackInRange(band, lot, wanted, slack, n, v);
    var excess := v + lot - slack;
    var total := excess + wanted;
    var qty := QuotientOf(total, price);
    target := QuotientOf(wanted, total);
    a := Account(qty, 0.0, 0.0);
    assert total * target == wanted;
    assert Equity(a, price) == total;
    FirstSale(qty, price, target, band, lot, wanted, excess, total, n, v);
    LotsWorth(price, n);
    SecondSale(a, price, target, band, lot, wanted, slack, total, n, n as real * LOT, v);
  }

  /** The whole lots of the excess are sold. */
  lemma FirstSale(qty: real, price: real, target: real, band: real, lot: real, wanted: real, excess: real, total: real,
                  n: nat, v: real)
    requires price > 0.0 && lot == price * LOT && v == n as real * lot && n >= 1 && qty > 0.0 && wanted > 0.0
    requires qty * price == total && total * target == wanted && target > 0.0 && total == excess + wanted
    requires v <= excess < v + lot && v >= MIN_ORDER_KRW && v >= band * wanted
    ensures Decide(qty, price, 0.0, total, target, band) == Trade(SELL, n as real * LOT)
  {
    hide Decide, RoundDown8, InBand;
    assert (n + 1) as real * lot == v + lot;
    AtLeastOneLot(n, lot);
    ExcessIsSold(qty, price, 0.0, total, target, band, total, wanted);
    WholeLots(excess, price, n);
    HoldsTheLots(excess, price, qty, total, n);
    assert total - wanted == excess;
  }

  lemma AtLeastOneLot(n: nat, lot: real)
    requires n >= 1 && lot > 0.0
    ensures n as real * lot >= lot
  {
    ProductSign((n - 1) as real, lot);
    assert (n - 1) as real * lot == n as real * lot - lot;
  }

  /** What the first sale leaves above the new target. */
  lemma SecondExcess(band: real, lot: real, wanted: real, slack: real, total: real, n: nat, v: real, f: real,
                     target: real, ft: real)
    requires Prepared(band, lot, wanted, slack, n, v) && f >= FEE_RATE * v - HALF_TICK && ft == f * target
    requires total == v + lot - slack + wanted && total * target == wanted
    ensures var left := total - v - (wanted - ft);
      left >= MIN_ORDER_KRW && left >= band * (wanted - ft) && left >= lot
  {
    hide Prepared, SlackFor;
    SlackInRange(band, lot, wanted, slack, n, v);
    SharesFee(f, target, ft, total, wanted);
    NearShare(band, lot, wanted, slack, total, n, v, f, ft);
    EnoughSlack(band, lot, wanted, slack, n, v, ft);
    assert total - v - (wanted - ft) == lot - slack + ft;
  }

  lemma NearShare(band: real, lot: real, wanted: real, slack: real, total: real, n: nat, v: real, f: real, ft: real)
    requires Prepared(band, lot, wanted, slack, n, v) && f >= FEE_RATE * v - HALF_TICK
    requires total == v + lot - slack + wanted && ft * total == f * wanted
    ensures ft >= FEE_RATE * wanted - slack
  {
    hide SlackFor;
    SlackIsEnough(lot, wanted, band, 0.0);
    FeeShareNear(v, lot, wanted, f, slack, total, ft);
  }

  lemma EnoughSlack(band: real, lot: real, wanted: real, slack: real, n: nat, v: real, ft: real)
    requires Prepared(band, lot, wanted, slack, n, v) && ft >= FEE_RATE * wanted - slack
    ensures var left := lot - slack + ft; left >= MIN_ORDER_KRW && left >= lot && left >= band * (wanted - ft)
  {
    hide SlackFor;
    SlackIsEnough(lot, wanted, band, ft);
  }

  lemma SharesFee(f: real, target: real, ft: real, total: real, wanted: real)
    requires ft == f * target && total * target == wanted
    ensures ft * total == f * wanted
  {
    assert ft * total == f * (total * target);
  }

  lemma SoldAgain(qty: real, price: real, cash: real, equity: real, target: real, band: real,
                  current: real, wanted: real)
    requires price > 0.0 && target > 0.0 && equity > 0.0
    requires current == qty * price && current > 0.0 && wanted == equity * target
    requires current - wanted >= MIN_ORDER_KRW && current - wanted >= band * wanted && current - wanted >= price * LOT
    ensures Decide(qty, price, cash, equity, target, band).Trade?
  {
    hide Decide, InBand, RoundDown8;
    PositiveFactor(qty, price, current);
    ExcessIsSold(qty, price, cash, equity, target, band, current, wanted);
  }

  lemma AboveAim(band: real, lot: real, wanted: real, slack: real, total: real, n: nat, v: real, f: real,
                 target: real, equity: real, aimed: real)
    requires Prepared(band, lot, wanted, slack, n, v) && total == v + lot - slack + wanted
    requires FEE_RATE * v - HALF_TICK <= f <= FEE_RATE * v + HALF_TICK
    requires total * target == wanted && equity == total - f && aimed == equity * target
    ensures equity > 0.0 && total - v > 0.0
    ensures total - v - aimed >= MIN_ORDER_KRW && total - v - aimed >= lot && total - v - aimed >= band * aimed
  {
    hide Prepared;
    var ft := f * target;
    SecondExcess(band, lot, wanted, slack, total, n, v, f, target, ft);
    LessFee(total, f, target, wanted, ft);
    SlackInRange(band, lot, wanted, slack, n, v);
  }

  /** An account that has sold the value v for the fee f. */
  lemma ExcessAgain(b: Account, price: real, target: real, band: real, lot: real, wanted: real, slack: real,
                    total: real, n: nat, v: real, f: real)
    requires price > 0.0 && lot == price * LOT && Prepared(band, lot, wanted, slack, n, v)
    requires Equity(b, price) == total - f && b.qty * price == total - v && total == v + lot - slack + wanted
    requires total * target == wanted && target > 0.0 && FEE_RATE * v - HALF_TICK <= f <= FEE_RATE * v + HALF_TICK
    ensures DecideFor(b, price, target, band).Trade?
  {
    hide Prepared, Decide, Equity;
    var equity := total - f;
    var aimed := equity * target;
    AboveAim(band, lot, wanted, slack, total, n, v, f, target, equity, aimed);
    SoldAgain(b.qty, price, b.cash, equity, target, band, total - v, aimed);
  }

  /** What the first sale leaves is sold again. */
  lemma SecondSale(a: Account, price: real, target: real, band: real, lot: real, wanted: real, slack: real,
                   total: real, n: nat, q: real, v: real)
    requires price > 0.0 && lot == price * LOT && Prepared(band, lot, wanted, slack, n, v) && v == price * q
    requires a.cash == a.others == 0.0 && a.qty * price == total == v + lot - slack + wanted
    requires total * target == wanted && target > 0.0
    ensures DecideFor(Filled(a, price, Trade(SELL, q)), price, target, band).Trade?
  {
    hide Prepared, Fee, Decide, Equity, Filled, DecideFor;
    var f := Fee(price, q);
    FeeOf(price, q, v);
    SoldAccount(a, price, q, v, f, total);
    ExcessAgain(Filled(a, price, Trade(SELL, q)), price, target, band, lot, wanted, slack, total, n, v, f);
  }

  lemma SoldAccount(a: Account, price: real, q: real, v: real, f: real, total: real)
    requires a.cash == a.others == 0.0 && a.qty * price == total && v == price * q && f == Fee(price, q)
    ensures var b := Filled(a, price, Trade(SELL, q)); Equity(b, price) == total - f && b.qty * price == total - v
  {
    hide Fee;
    FilledValues(a, price, Trade(SELL, q), v, f);
  }

  lemma HoldsTheLots(excess: real, price: real, qty: real, total: real, n: nat)
    requires price > 0.0 && qty * price == total && excess <= total
    requires RoundDown8(excess / price) == n as real * LOT && excess >= 0.0
    ensures Lesser(RoundDown8(excess / price), qty) == n as real * LOT
  {
    hide RoundDown8;
    QuotientBound(excess, price, qty);
    QuotientBound(excess, price, 0.0);
  }

  lemma TradesTwice(price: real, band: real) returns (a: Account, target: real)
    requires price > 0.0 && !LotFits(price * LOT, band)
    ensures NothingOwed(a) && 0.0 < target <= 1.0 && DecideFor(a, price, target, band).Trade?
    ensures DecideFor(Filled(a, price, DecideFor(a, price, target, band)), price, target, band).Trade?
  {
    hide Filled, DecideFor;
    if band < 0.0 {
      a, target := SellsAgain(price, 0.0);
      NegativeBand(a, price, target, band);
      NegativeBand(Filled(a, price, DecideFor(a, price, target, band)), price, target, band);
    } else {
      a, target := SellsAgain(price, band);
    }
  }

  /** No drift is inside an empty band. */
  lemma NegativeBand(a: Account, price: real, target: real, band: real)
    requires target > 0.0 && band < 0.0
    ensures DecideFor(a, price, target, band) == DecideFor(a, price, target, 0.0)
  {
    hide Fee, RoundDown8, AffordableQty;
    var equity := Equity(a, price);
    if equity > 0.0 {
      StrictProduct(-band, target);
      var drift := Magnitude(a.qty * price - equity * target);
      QuotientBound(drift, equity, 0.0);
    }
  }

  /** Re-running the rule right after its order filled trades nothing, whatever the account and the target. */
  ghost predicate Converges(price: real, band: real) {
    forall a, target :: NothingOwed(a) && target <= 1.0 && DecideFor(a, price, target, band).Trade? ==>
      DecideFor(Filled(a, price, DecideFor(a, price, target, band)), price, target, band) == Hold
  }

  /** One order is enough for every account and target exactly when a lot is small enough for the band. */
  lemma ConvergesIffLotFits(price: real, band: real)
    requires price > 0.0
    ensures Converges(price, band) <==> LotFits(price * LOT, band)
  {
    hide DecideFor, Filled, LotFits;
    if LotFits(price * LOT, band) {
      forall a, target | NothingOwed(a) && target <= 1.0 && DecideFor(a, price, target, band).Trade?
        ensures DecideFor(Filled(a, price, DecideFor(a, price, target, band)), price, target, band) == Hold
      {
        OneOrderConverges(a, price, target, band);
      }
    } else {
      var a, target := TradesTwice(price, band);
      assert NothingOwed(a) && DecideFor(a, price, target, band).Trade?;
    }
  }

  /** A lot worth just under the minimum order is not small enough: the default band, half the account
      targeted, and the second run buys another lot. */
  lemma LargeLotTradesTwice()
    ensures var price := 499900000000.0;
      var a := Account(0.0, 20005.98, 0.0);
      var d := Decide(a.qty, price, a.cash, Equity(a, price), 0.5, 0.5);
      && price * LOT < MIN_ORDER_KRW
      && d == Trade(BUY, LOT)
      && var b := Filled(a, price, d);
         Decide(b.qty, price, b.cash, Equity(b, price), 0.5, 0.5) == Trade(BUY, LOT)
  {
    var price := 499900000000.0;
    var a := Account(0.0, 20005.98, 0.0);
    var first := (10002.99 - TICK) / (price * (1.0 + FEE_RATE));
    assert (first * 100000000.0).Floor == 1;
    var d := Decide(a.qty, price, a.cash, Equity(a, price), 0.5, 0.5);
    assert d == Trade(BUY, LOT);
    var b := Filled(a, price, d);
    assert Fee(price, LOT) == 2.4995 by {
      assert price * LOT * FEE_RATE == 2.4995;
      assert OnGrid(2.4995);
    }
    assert b.qty == LOT && b.cash == 15004.4805 && Equity(b, price) == 20003.4805;
    var gap := 20003.4805 * 0.5 - 4999.0;
    var second := (gap - TICK) / (price * (1.0 + FEE_RATE));
    assert (second * 100000000.0).Floor == 1;
  }
}
