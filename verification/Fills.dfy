/** Fill assumptions of the backtest: adverse slippage, quantised fee, sale tax on Korean shares. */
module Fills {
  import opened Money

  datatype AssetClass = COIN | STOCK_KR | STOCK_US

  predicate Digits(symbol: string) {
    symbol != "" && forall i :: 0 <= i < |symbol| ==> '0' <= symbol[i] <= '9'
  }

  function ClassOf(symbol: string): AssetClass {
    if "KRW-" <= symbol then COIN else if Digits(symbol) then STOCK_KR else STOCK_US
  }

  function BuyPrice(slippageBps: real, price: real): real {
    if slippageBps == 0.0 then price else price * (1.0 + slippageBps / 10000.0)
  }

  function SellPrice(slippageBps: real, price: real): real {
    if slippageBps == 0.0 then price else price * (1.0 - slippageBps / 10000.0)
  }

  function Tax(symbol: string, price: real, qty: real): real {
    if ClassOf(symbol).STOCK_KR? then RoundHalfEven(Amount(price, qty) * SELL_TAX_RATE) else 0.0
  }

  /** Shares trade in whole numbers, rounded down. */
  function Tradable(symbol: string, qty: real): real {
    if ClassOf(symbol).COIN? then qty else if qty >= 0.0 then qty.Floor as real else -((-qty).Floor as real)
  }

  /** A fill is dearer to buy and cheaper to sell by the slippage in ten-thousandths of the price. That is never in the
      trader's favour exactly when the slippage is not negative; a sale price stays non-negative exactly up to 10000
      basis points. */
  lemma SlippageIsAdverse(slippageBps: real, price: real)
    requires price > 0.0
    ensures SellPrice(slippageBps, price) <= price <= BuyPrice(slippageBps, price) <==> slippageBps >= 0.0
    ensures SellPrice(slippageBps, price) >= 0.0 <==> slippageBps <= 10000.0
    ensures (BuyPrice(slippageBps, price) - price) * 10000.0 == price * slippageBps
    ensures (price - SellPrice(slippageBps, price)) * 10000.0 == price * slippageBps
  {
    var adj := slippageBps / 10000.0;
    assert price * (1.0 + adj) == price + price * adj && price * (1.0 - adj) == price - price * adj;
    SignOf(price, adj);
    SignOf(price, 1.0 - adj);
  }

  /** Only symbols of digits, Korean shares, are taxed on a sale: the tax rate on the money, to half a tick. */
  lemma TaxIsOfKoreanShares(symbol: string, price: real, qty: real)
    ensures (symbol == "" || exists i :: 0 <= i < |symbol| && !('0' <= symbol[i] <= '9')) ==>
              Tax(symbol, price, qty) == 0.0
    ensures symbol != "" && (forall i :: 0 <= i < |symbol| ==> '0' <= symbol[i] <= '9') ==>
              price * qty * SELL_TAX_RATE - HALF_TICK <= Tax(symbol, price, qty)
                                                      <= price * qty * SELL_TAX_RATE + HALF_TICK
  {
    hide RoundHalfEven;
    if "KRW-" <= symbol {
      assert symbol[0] == 'K';
    }
  }

  /** Coins trade in any quantity, shares in the largest whole number towards zero. */
  lemma SharesAreWhole(symbol: string, qty: real)
    ensures var q := Tradable(symbol, qty);
      if "KRW-" <= symbol then q == qty
      else q.Floor as real == q && if qty >= 0.0 then 0.0 <= q <= qty < q + 1.0 else q - 1.0 < qty <= q <= 0.0
  {
    var whole := qty.Floor;
    assert (whole as real).Floor == whole;
    var back := (-qty).Floor;
    assert (-(back as real)) == (-back) as real;
    assert ((-back) as real).Floor == -back;
  }

  lemma SignOf(price: real, x: real)
    requires price > 0.0
    ensures price * x >= 0.0 <==> x >= 0.0
  {
    if x >= 0.0 {
      ProductSign(price, x);
    } else {
      StrictProduct(price, -x);
      assert price * -x == -(price * x);
    }
  }

  /** Rounding to even at most doubles an amount, because anything up to half a tick becomes nothing. */
  lemma AtMostDoubled(x: real)
    requires x >= 0.0
    ensures RoundHalfEven(x) <= 2.0 * x
  {
    var y := x * 10000.0;
    var n := IntHalfEven(y);
    if y <= 0.5 {
      assert y.Floor == 0;
      assert n == 0;
    }
    assert n as real <= 2.0 * y;
  }

  /** What a sale brings in covers its own fee and tax. */
  lemma SaleCoversCosts(symbol: string, price: real, qty: real)
    requires Amount(price, qty) >= 0.0
    ensures Amount(price, qty) - Fee(price, qty) - Tax(symbol, price, qty) >= 0.0
  {
    hide RoundHalfEven, Amount, ClassOf;
    AtMostDoubled(Amount(price, qty) * FEE_RATE);
    AtMostDoubled(Amount(price, qty) * SELL_TAX_RATE);
  }
}
