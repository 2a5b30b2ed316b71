/** Decimal arithmetic as the source uses it: exact values plus explicit rounding steps.
    The engine quantizes fees with the decimal default (ties to even); NUMERIC(20,4) columns round
    ties away from zero; sizing rounds quantities down to 1e-8. */
module Money {
  const FEE_RATE := 0.0005
  const SELL_TAX_RATE := 0.0020
  const MIN_ORDER_KRW := 5000.0

  /** Half a unit of the fourth decimal: the largest error of one rounding step. */
  const HALF_TICK := 0.00005
  const TICK := 0.0001
  const LOT := 0.00000001

  /** A whole number of ticks. */
  function Ticks(n: int): (r: real)
    ensures r * 10000.0 == n as real
    ensures OnGrid(r)
  {
    n as real / 10000.0
  }

  /** Values a NUMERIC(20,4) column can hold. */
  predicate OnGrid(x: real) {
    (x * 10000.0).Floor as real == x * 10000.0
  }

  lemma GridSum(x: real, y: real)
    requires OnGrid(x) && OnGrid(y)
    ensures OnGrid(x + y) && OnGrid(x - y)
  {
    var a, b := (x * 10000.0).Floor, (y * 10000.0).Floor;
    assert x == Ticks(a) && y == Ticks(b);
    assert x + y == Ticks(a + b) && x - y == Ticks(a - b);
  }

  lemma ProductSign(a: real, b: real)
    requires a >= 0.0 && b >= 0.0
    ensures a * b >= 0.0
  {
  }

  lemma StrictProduct(a: real, b: real)
    requires a > 0.0 && b > 0.0
    ensures a * b > 0.0
  {
  }

  /** A quotient against a bound, cleared of the division. */
  lemma QuotientBound(x: real, d: real, q: real)
    requires d > 0.0
    ensures q * d <= x <==> q <= x / d
    ensures x <= q * d <==> x / d <= q
  {
    var y := x / d;
    assert y * d == x;
    if q < y {
      StrictProduct(y - q, d);
    } else if y < q {
      StrictProduct(q - y, d);
    }
  }

  function Magnitude(x: real): (r: real) {
    if x < 0.0 then -x else x
  }

  /** What a quantity is worth at a unit price. */
  function Amount(unitPrice: real, qty: real): real { unitPrice * qty }

  lemma Distribute(unitPrice: real, x: real, y: real)
    ensures Amount(unitPrice, x + y) == Amount(unitPrice, x) + Amount(unitPrice, y)
    ensures Amount(unitPrice, x - y) == Amount(unitPrice, x) - Amount(unitPrice, y)
    ensures Amount(unitPrice, 0.0) == 0.0
  {
  }

  function IntHalfUp(y: real): (n: int)
    ensures y - 0.5 <= n as real <= y + 0.5
  {
    if y < 0.0 then -((-y + 0.5).Floor) else (y + 0.5).Floor
  }

  function IntHalfEven(y: real): (n: int)
    ensures y - 0.5 <= n as real <= y + 0.5
  {
    var n := y.Floor;
    var part := y - n as real;
    if part > 0.5 || (part == 0.5 && n % 2 != 0) then n + 1 else n
  }

  /** Rounding to the nearest integer keeps a value that already is one, and its sign. */
  lemma Nearest(x: real, n: int)
    requires x * 10000.0 - 0.5 <= n as real <= x * 10000.0 + 0.5
    ensures x - HALF_TICK <= Ticks(n) <= x + HALF_TICK
    ensures OnGrid(x) ==> Ticks(n) == x
    ensures x >= 0.0 ==> Ticks(n) >= 0.0
  {
    var k := (x * 10000.0).Floor;
    if OnGrid(x) {
      assert (n - k) as real == n as real - k as real;
      assert n == k;
    }
  }

  /** NUMERIC(20,4) storage: ties away from zero. */
  function RoundHalfUp(x: real): (r: real)
    ensures OnGrid(r)
    ensures x - HALF_TICK <= r <= x + HALF_TICK
    ensures OnGrid(x) ==> r == x
    ensures x >= 0.0 ==> r >= 0.0
  {
    var n := IntHalfUp(x * 10000.0);
    Nearest(x, n);
    Ticks(n)
  }

  /** Half-way between two ticks, the column goes away from zero. */
  lemma TiesAwayFromZero(n: nat)
    ensures RoundHalfUp(Ticks(n) + HALF_TICK) == Ticks(n + 1)
    ensures RoundHalfUp(-Ticks(n) - HALF_TICK) == -Ticks(n + 1)
  {
    assert (Ticks(n) + HALF_TICK) * 10000.0 == n as real + 0.5;
    assert (-Ticks(n) - HALF_TICK) * 10000.0 == -(n as real + 0.5);
    assert IntHalfUp(n as real + 0.5) == n + 1;
    assert IntHalfUp(-(n as real + 0.5)) == -(n + 1);
  }

  /** Decimal.quantize(0.0001) with the default context: ties to even. */
  function RoundHalfEven(x: real): (r: real)
    ensures OnGrid(r)
    ensures x - HALF_TICK <= r <= x + HALF_TICK
    ensures OnGrid(x) ==> r == x
    ensures x >= 0.0 ==> r >= 0.0
  {
    var n := IntHalfEven(x * 10000.0);
    Nearest(x, n);
    Ticks(n)
  }

  /** Half-way between two ticks, a fee goes to the even one. */
  lemma TiesToEven(n: int)
    ensures RoundHalfEven(Ticks(n) + HALF_TICK) == Ticks(if n % 2 == 0 then n else n + 1)
  {
    var y := (Ticks(n) + HALF_TICK) * 10000.0;
    assert y == n as real + 0.5;
    assert y.Floor == n;
    assert IntHalfEven(y) == if n % 2 == 0 then n else n + 1;
  }

  /** quantize(0.00000001, ROUND_DOWN): truncation toward zero. */
  function RoundDown8(x: real): (r: real)
    ensures x >= 0.0 ==> 0.0 <= r <= x < r + LOT
    ensures x <= 0.0 ==> r - LOT < x <= r <= 0.0
  {
    if x >= 0.0 then (x * 100000000.0).Floor as real / 100000000.0
    else -((-x * 100000000.0).Floor as real / 100000000.0)
  }

  /** A sized quantity is a whole number of lots. */
  lemma WholeLots(x: real)
    ensures (RoundDown8(x) * 100000000.0).Floor as real == RoundDown8(x) * 100000000.0
  {
    var n := if x >= 0.0 then (x * 100000000.0).Floor else -((-x * 100000000.0).Floor);
    assert RoundDown8(x) * 100000000.0 == n as real;
  }

  /** Fee charged by the engine, the trade job and the fill model. */
  function Fee(price: real, quantity: real): (r: real)
    ensures OnGrid(r)
    ensures price * quantity * FEE_RATE - HALF_TICK <= r <= price * quantity * FEE_RATE + HALF_TICK
    ensures price * quantity >= 0.0 ==> r >= 0.0
  {
    RoundHalfEven(Amount(price, quantity) * FEE_RATE)
  }
}
