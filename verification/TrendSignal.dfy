/** Volatility-targeted trend signals with a hysteresis latch, and the two ways they are combined. */
module TrendSignal {
  import opened Money
  import opened Dict

  /** vol is the annualised volatility of the last lookback + 1 closes; its formula does not matter here. */
  datatype Params = Params(short: nat, long: nat, entryBand: real, volTarget: real, lookback: nat, maxWeight: real,
                           regimeMaxVol: real, vol: seq<real> -> real)

  predicate Usable(p: Params) {
    0 < p.short < p.long && p.lookback > 0 && p.maxWeight >= 0.0 && p.volTarget >= 0.0
  }

  function Warmup(p: Params): (w: nat)
    ensures w >= p.short && w >= p.long && w > p.lookback
    ensures w == p.short || w == p.long || w == p.lookback + 1
  {
    var m := if p.short > p.long then p.short else p.long;
    if m > p.lookback + 1 then m else p.lookback + 1
  }

  /** closes[-n:] for positive n. */
  function Tail(h: seq<real>, n: nat): seq<real> {
    if |h| <= n then h else h[|h| - n..]
  }

  lemma TailOfTail(h: seq<real>, m: nat, n: nat)
    requires n <= m
    ensures Tail(Tail(h, m), n) == Tail(h, n)
  {
  }

  /** A deque with a maximum length keeps the tail of everything appended. */
  lemma TailAppend(h: seq<real>, n: nat, x: real)
    requires n > 0
    ensures Tail(Tail(h, n) + [x], n) == Tail(h + [x], n)
  {
  }

  function Total(s: seq<real>): real {
    if s == [] then 0.0 else Total(s[..|s| - 1]) + s[|s| - 1]
  }

  function Sma(closes: seq<real>, n: nat): real
    requires n > 0
  {
    Total(Tail(closes, n)) / n as real
  }

  lemma {:induction false} TotalJoin(a: seq<real>, b: seq<real>)
    ensures Total(a + b) == Total(a) + Total(b)
  {
    if b == [] {
      assert a + b == a;
    } else {
      TotalJoin(a, b[..|b| - 1]);
      assert (a + b)[..|a + b| - 1] == a + b[..|b| - 1];
    }
  }

  /** With every new close the average moves by an n-th of what comes in over what falls out. */
  lemma AverageSlides(h: seq<real>, n: nat, x: real)
    requires 0 < n <= |h|
    ensures (Sma(h + [x], n) - Sma(h, n)) * n as real == x - h[|h| - n]
  {
    var before, after := Tail(h, n), Tail(h + [x], n);
    assert before == [h[|h| - n]] + before[1..] && after == before[1..] + [x];
    TotalJoin([h[|h| - n]], before[1..]);
    TotalJoin(before[1..], [x]);
    hide Sma, Tail;
    AverageTimes(h, n);
    AverageTimes(h + [x], n);
    Difference(Sma(h + [x], n), Sma(h, n), n as real);
  }

  lemma AverageTimes(h: seq<real>, n: nat)
    requires n > 0
    ensures Sma(h, n) * n as real == Total(Tail(h, n))
  {
  }

  lemma Difference(x: real, y: real, z: real)
    ensures (x - y) * z == x * z - y * z
  {
  }

  lemma {:induction false} TotalOfEqual(s: seq<real>, x: real)
    requires forall i :: 0 <= i < |s| ==> s[i] == x
    ensures Total(s) == |s| as real * x
  {
    if s != [] {
      TotalOfEqual(s[..|s| - 1], x);
      assert |s| as real * x == (|s| - 1) as real * x + x;
    }
  }

  /** The average of closes that are all the same. */
  lemma AverageOfEqual(h: seq<real>, n: nat, x: real)
    requires 0 < n <= |h| && forall i :: 0 <= i < |h| ==> h[i] == x
    ensures Sma(h, n) == x
  {
    TotalOfEqual(Tail(h, n), x);
    assert Sma(h, n) * n as real == x * n as real;
    assert (Sma(h, n) - x) * n as real == 0.0;
  }

  function TargetWeight(p: Params, annVol: real): real {
    if annVol <= 0.0 then p.maxWeight
    else if p.maxWeight < p.volTarget / annVol then p.maxWeight else p.volTarget / annVol
  }

  lemma WeightInRange(p: Params, annVol: real)
    requires Usable(p)
    ensures 0.0 <= TargetWeight(p, annVol) <= p.maxWeight
  {
    if annVol > 0.0 {
      QuotientBound(p.volTarget, annVol, 0.0);
    }
  }

  /** Leave on a reversal or an extreme regime, enter on an uptrend, otherwise stay. */
  function Verdict(p: Params, smaS: real, smaL: real, annVol: real, long: bool): (real, bool) {
    var extreme := annVol > p.regimeMaxVol;
    var up, down := smaS > smaL * (1.0 + p.entryBand), smaS < smaL * (1.0 - p.entryBand);
    var next := if long && (extreme || down) then false else if !long && up && !extreme then true else long;
    (if next then TargetWeight(p, annVol) else 0.0, next)
  }

  /** One decision from the closes seen and the latch before it. */
  function Judge(p: Params, closes: seq<real>, long: bool): (real, bool)
    requires Usable(p)
  {
    Verdict(p, Sma(closes, p.short), Sma(closes, p.long), p.vol(Tail(closes, p.lookback + 1)), long)
  }

  // ----- Over the whole history -----

  function Latch(p: Params, h: seq<real>): bool
    requires Usable(p)
  {
    |h| >= Warmup(p) && Judge(p, h, Latch(p, h[..|h| - 1])).1
  }

  function TargetAt(p: Params, h: seq<real>): real
    requires Usable(p)
  {
    if |h| < Warmup(p) then 0.0 else Judge(p, h, Latch(p, h[..|h| - 1])).0
  }

  lemma TargetInRange(p: Params, h: seq<real>)
    requires Usable(p)
    ensures 0.0 <= TargetAt(p, h) <= p.maxWeight
  {
    hide TargetWeight, Sma, Tail;
    WeightInRange(p, p.vol(Tail(h, p.lookback + 1)));
  }

  predicate Extreme(p: Params, h: seq<real>) {
    p.vol(Tail(h, p.lookback + 1)) > p.regimeMaxVol
  }

  /** A calm uptrend: the short average above the long one by more than the band. */
  predicate Enters(p: Params, h: seq<real>)
    requires Usable(p)
  {
    |h| >= Warmup(p) && !Extreme(p, h) && Sma(h, p.short) > Sma(h, p.long) * (1.0 + p.entryBand)
  }

  /** An extreme regime, or the short average below the long one by more than the band. */
  predicate Exits(p: Params, h: seq<real>)
    requires Usable(p)
  {
    Extreme(p, h) || Sma(h, p.short) < Sma(h, p.long) * (1.0 - p.entryBand)
  }

  lemma {:induction false} PositiveSum(s: seq<real>)
    requires forall i :: 0 <= i < |s| ==> s[i] > 0.0
    ensures Total(s) >= 0.0
  {
    if s != [] {
      PositiveSum(s[..|s| - 1]);
    }
  }

  lemma NotBothWays(p: Params, h: seq<real>)
    requires Usable(p) && p.entryBand >= 0.0 && forall i :: 0 <= i < |h| ==> h[i] > 0.0
    ensures !(Enters(p, h) && Exits(p, h))
  {
    hide Tail, Extreme;
    TailIsPositive(h, p.long);
    PositiveSum(Tail(h, p.long));
    var smaL := Sma(h, p.long);
    QuotientBound(Total(Tail(h, p.long)), p.long as real, 0.0);
    ProductSign(smaL, p.entryBand);
    assert smaL * (1.0 + p.entryBand) == smaL + smaL * p.entryBand;
    assert smaL * (1.0 - p.entryBand) == smaL - smaL * p.entryBand;
  }

  lemma TailIsPositive(h: seq<real>, n: nat)
    requires forall i :: 0 <= i < |h| ==> h[i] > 0.0
    ensures forall i :: 0 <= i < |Tail(h, n)| ==> Tail(h, n)[i] > 0.0
  {
  }

  lemma LatchStep(p: Params, h: seq<real>)
    requires Usable(p) && |h| > 0
    ensures var before := Latch(p, h[..|h| - 1]);
      Latch(p, h) == (|h| >= Warmup(p) && if before then !Exits(p, h) else Enters(p, h))
  {
    hide Sma, Tail, TargetWeight;
  }

  /** The latch is set exactly when some earlier bar entered and no bar since has been an exit; the bars in between may
      well lie inside the neutral band. */
  lemma {:induction false} LatchRemembersEntry(p: Params, h: seq<real>)
    requires Usable(p) && p.entryBand >= 0.0 && forall i :: 0 <= i < |h| ==> h[i] > 0.0
    ensures Latch(p, h) <==> EnteredAndStayed(p, h)
  {
    hide Enters, Exits, Judge, Latch;
    var n := |h|;
    assert h[..n] == h;
    if n == 0 {
      NoBars(p, h);
    } else {
      var front := h[..n - 1];
      LatchRemembersEntry(p, front);
      assert forall k :: 0 <= k <= n - 1 ==> front[..k] == h[..k];
      LatchStep(p, h);
      NotBothWays(p, h);
      if Latch(p, h) {
        if Latch(p, front) {
          var j :| 0 <= j <= n - 1 && Enters(p, front[..j]) && forall k :: j < k <= n - 1 ==> !Exits(p, front[..k]);
          assert Enters(p, h[..j]) && forall k :: j < k <= n ==> !Exits(p, h[..k]);
        } else {
          assert Enters(p, h[..n]);
        }
      } else {
        forall j | 0 <= j <= n && Enters(p, h[..j])
          ensures exists k :: j < k <= n && Exits(p, h[..k])
        {
          EntersLate(p, h[..j]);
          if j < n {
            assert Enters(p, front[..j]);
            if forall k :: j < k <= n - 1 ==> !Exits(p, front[..k]) {
              assert Latch(p, front);
              assert Exits(p, h[..n]);
            } else {
              var k :| j < k <= n - 1 && Exits(p, front[..k]);
              assert Exits(p, h[..k]);
            }
          }
        }
      }
    }
  }

  /** Some bar entered and none since was an exit. */
  ghost predicate EnteredAndStayed(p: Params, h: seq<real>)
    requires Usable(p)
  {
    exists j :: 0 <= j <= |h| && Enters(p, h[..j]) && forall k :: j < k <= |h| ==> !Exits(p, h[..k])
  }

  /** What the target is after any closes: nothing unless some bar entered and none since was an exit; otherwise the
      largest weight, or the target volatility over the volatility of the latest closes where that is less. */
  lemma TargetFollowsTrend(p: Params, h: seq<real>)
    requires Usable(p) && p.entryBand >= 0.0 && forall i :: 0 <= i < |h| ==> h[i] > 0.0
    ensures !EnteredAndStayed(p, h) ==> TargetAt(p, h) == 0.0
    ensures EnteredAndStayed(p, h) ==> |h| > p.lookback
    ensures EnteredAndStayed(p, h) ==>
      var v := p.vol(h[|h| - p.lookback - 1..]);
      && (v <= 0.0 || p.volTarget >= p.maxWeight * v ==> TargetAt(p, h) == p.maxWeight)
      && (v > 0.0 && p.volTarget <= p.maxWeight * v ==> TargetAt(p, h) * v == p.volTarget)
    ensures p.maxWeight > 0.0 && p.volTarget > 0.0 ==> (TargetAt(p, h) > 0.0 <==> EnteredAndStayed(p, h))
  {
    hide Enters, Exits, Sma;
    LatchRemembersEntry(p, h);
    var v := p.vol(Tail(h, p.lookback + 1));
    if Latch(p, h) {
      assert TargetAt(p, h) == TargetWeight(p, v);
      WeightIs(p, v);
    }
  }

  /** The smaller of the largest weight and the target volatility over the volatility, without the quotient. */
  lemma WeightIs(p: Params, v: real)
    requires Usable(p)
    ensures v <= 0.0 ==> TargetWeight(p, v) == p.maxWeight
    ensures v > 0.0 && p.volTarget >= p.maxWeight * v ==> TargetWeight(p, v) == p.maxWeight
    ensures v > 0.0 && p.volTarget <= p.maxWeight * v ==> TargetWeight(p, v) * v == p.volTarget
    ensures p.maxWeight > 0.0 && p.volTarget > 0.0 ==> TargetWeight(p, v) > 0.0
  {
    if v > 0.0 {
      QuotientBound(p.volTarget, v, p.maxWeight);
      QuotientBound(p.volTarget, v, 0.0);
      assert (p.volTarget / v) * v == p.volTarget;
    }
  }

  lemma NoBars(p: Params, h: seq<real>)
    requires Usable(p) && h == []
    ensures !Latch(p, h) && !Enters(p, h)
  {
  }

  lemma EntersLate(p: Params, h: seq<real>)
    requires Usable(p) && Enters(p, h)
    ensures |h| >= Warmup(p)
  {
  }

  /** The decision needs no more closes than the bounded buffer keeps. */
  lemma BufferIsEnough(p: Params, h: seq<real>, long: bool)
    requires Usable(p)
    ensures Judge(p, Tail(h, Warmup(p) + 1), long) == Judge(p, h, long)
  {
    hide Verdict, Tail, Total;
    TailOfTail(h, Warmup(p) + 1, p.short);
    TailOfTail(h, Warmup(p) + 1, p.long);
    TailOfTail(h, Warmup(p) + 1, p.lookback + 1);
  }

  class TrendSignal {
    const p: Params
    var prices: map<string, seq<real>>
    var longState: map<string, bool>
    /** Every close ever fed, per symbol. */
    ghost var history: map<string, seq<real>>

    constructor (p: Params)
      requires Usable(p)
      ensures Valid() && this.p == p && history == map[]
    {
      this.p := p;
      prices, longState, history := map[], map[], map[];
    }

    function Buffer(symbol: string): seq<real>
      reads this
    {
      if symbol in prices then prices[symbol] else []
    }

    predicate Long(symbol: string)
      reads this
    {
      symbol in longState && longState[symbol]
    }

    ghost function History(symbol: string): seq<real>
      reads this
    {
      if symbol in history then history[symbol] else []
    }

    /** Buffer and latch are those of the whole history. */
    ghost predicate Valid(): (v: bool)
      reads this
      ensures v ==> Usable(p)
    {
      Usable(p) && forall s :: Buffer(s) == Tail(History(s), Warmup(p) + 1) && Long(s) == Latch(p, History(s))
    }

    /** Working from the bounded buffer gives what a fold over the full history gives. */
    method Update(symbol: string, price: real) returns (target: real)
      requires Valid()
      modifies this
      ensures Valid() && history == old(history)[symbol := old(History(symbol)) + [price]]
      ensures target == TargetAt(p, History(symbol))
    {
      hide Judge, Tail;
      ghost var h := History(symbol) + [price];
      StepFromBuffer(p, History(symbol), price, Long(symbol));

      var closes := Tail(Buffer(symbol) + [price], Warmup(p) + 1);
      prices := prices[symbol := closes];
      history := history[symbol := h];
      target := 0.0;
      if |closes| >= Warmup(p) {
        var (weight, long) := Judge(p, closes, Long(symbol));
        longState := longState[symbol := long];
        target := weight;
      }
      assert Long(symbol) == Latch(p, h);
      forall s | s != symbol
        ensures Buffer(s) == Tail(History(s), Warmup(p) + 1) && Long(s) == Latch(p, History(s))
      {
        assert Buffer(s) == old(Buffer(s)) && Long(s) == old(Long(s)) && History(s) == old(History(s));
      }
    }
  }

  /** One append: the buffer stays the tail, and a decision taken on it is the decision on the whole history. */
  lemma StepFromBuffer(p: Params, seen: seq<real>, price: real, long: bool)
    requires Usable(p) && long == Latch(p, seen)
    ensures var h := seen + [price]; var closes := Tail(Tail(seen, Warmup(p) + 1) + [price], Warmup(p) + 1);
      && closes == Tail(h, Warmup(p) + 1) && (|closes| >= Warmup(p) <==> |h| >= Warmup(p))
      && (|h| < Warmup(p) ==> Latch(p, h) == Latch(p, seen) == false && TargetAt(p, h) == 0.0)
      && (|h| >= Warmup(p) ==> (TargetAt(p, h), Latch(p, h)) == Judge(p, closes, long))
  {
    hide Judge, Tail;
    var h := seen + [price];
    assert h[..|h| - 1] == seen;
    TailAppend(seen, Warmup(p) + 1, price);
    TailLength(h, Warmup(p) + 1);
    BufferIsEnough(p, h, long);
  }

  lemma TailLength(h: seq<real>, n: nat)
    ensures |Tail(h, n)| == if |h| < n then |h| else n
  {
  }

  // ----- Several speeds together -----

  function ClosesIn(history: map<string, seq<real>>, symbol: string): seq<real> {
    if symbol in history then history[symbol] else []
  }

  /** One symbol has seen more closes, the others nothing new. */
  predicate Grown(after: map<string, seq<real>>, before: map<string, seq<real>>, symbol: string, more: seq<real>) {
    after - {symbol} == before - {symbol} && ClosesIn(after, symbol) == ClosesIn(before, symbol) + more
  }

  lemma GrownTwice(c: map<string, seq<real>>, b: map<string, seq<real>>, a: map<string, seq<real>>, symbol: string,
                   first: seq<real>, second: seq<real>)
    requires Grown(b, a, symbol, first) && Grown(c, b, symbol, second)
    ensures Grown(c, a, symbol, first + second)
  {
    assert ClosesIn(a, symbol) + first + second == ClosesIn(a, symbol) + (first + second);
  }

  ghost predicate Separate(signals: seq<TrendSignal>) {
    forall i, j :: 0 <= i < j < |signals| ==> signals[i] != signals[j]
  }

  ghost predicate AllValid(signals: seq<TrendSignal>)
    reads signals
  {
    forall i :: 0 <= i < |signals| ==> signals[i].Valid()
  }

  /** The targets of the whole history each signal has seen. */
  ghost function TargetsFor(signals: seq<TrendSignal>, symbol: string): (t: seq<real>)
    requires AllValid(signals)
    reads signals
    ensures |t| == |signals|
  {
    seq(|signals|, i requires 0 <= i < |signals| && signals[i].Valid() reads signals =>
          TargetAt(signals[i].p, signals[i].History(symbol)))
  }

  lemma GrownByOne(after: map<string, seq<real>>, before: map<string, seq<real>>, symbol: string, x: real)
    requires after == before[symbol := ClosesIn(before, symbol) + [x]]
    ensures Grown(after, before, symbol, [x])
  {
  }

  /** Every signal sees the close once; the targets come back in order. */
  method UpdateAll(signals: seq<TrendSignal>, symbol: string, price: real) returns (targets: seq<real>)
    requires Separate(signals) && AllValid(signals)
    modifies signals
    ensures AllValid(signals) && targets == TargetsFor(signals, symbol)
    ensures forall i :: 0 <= i < |signals| ==> Grown(signals[i].history, old(signals[i].history), symbol, [price])
  {
    hide TargetAt, Grown, TrendSignal.Valid;
    targets := [];
    for k := 0 to |signals|
      invariant AllValid(signals) && |targets| == k
      invariant forall i :: k <= i < |signals| ==> unchanged(signals[i])
      invariant forall i :: 0 <= i < k ==> Grown(signals[i].history, old(signals[i].history), symbol, [price])
      invariant forall i :: 0 <= i < k ==> targets[i] == TargetAt(signals[i].p, signals[i].History(symbol))
    {
      var t := signals[k].Update(symbol, price);
      GrownByOne(signals[k].history, old(signals[k].history), symbol, price);
      targets := targets + [t];
    }
  }

  /** Weighted sum of the first n targets, and of the first n weights. */
  function Weighted(weights: seq<real>, targets: seq<real>, n: nat): real
    requires n <= |weights| && n <= |targets|
  {
    if n == 0 then 0.0 else Weighted(weights, targets, n - 1) + weights[n - 1] * targets[n - 1]
  }

  function Mean(weights: seq<real>, targets: seq<real>): real
    requires |weights| == |targets| && Total(weights) != 0.0
  {
    Weighted(weights, targets, |targets|) / Total(weights)
  }

  lemma {:induction false} WeightedInRange(weights: seq<real>, targets: seq<real>, n: nat, top: real)
    requires n <= |weights| == |targets|
    requires forall i :: 0 <= i < |weights| ==> weights[i] >= 0.0 && 0.0 <= targets[i] <= top
    ensures 0.0 <= Weighted(weights, targets, n) <= top * Total(weights[..n])
  {
    if n > 0 {
      WeightedInRange(weights, targets, n - 1, top);
      var w, t := weights[n - 1], targets[n - 1];
      ProductSign(w, t);
      ProductSign(w, top - t);
      assert weights[..n][..n - 1] == weights[..n - 1];
      assert top * Total(weights[..n]) == top * Total(weights[..n - 1]) + top * w;
      assert w * (top - t) == top * w - w * t;
    }
  }

  /** A weighted mean of targets stays between nothing and the largest allowed weight. */
  lemma MeanInRange(weights: seq<real>, targets: seq<real>, top: real)
    requires |weights| == |targets| && Total(weights) > 0.0
    requires forall i :: 0 <= i < |weights| ==> weights[i] >= 0.0 && 0.0 <= targets[i] <= top
    ensures 0.0 <= Mean(weights, targets) <= top
  {
    WeightedInRange(weights, targets, |targets|, top);
    assert weights[..|targets|] == weights;
    QuotientBound(Weighted(weights, targets, |targets|), Total(weights), 0.0);
    QuotientBound(Weighted(weights, targets, |targets|), Total(weights), top);
  }

  /** A change of one target moves the mean by that load's part of the weights; equal targets are their own mean. */
  lemma MeanMoves(weights: seq<real>, targets: seq<real>, k: nat, x: real)
    requires k < |weights| == |targets| && Total(weights) != 0.0
    ensures (Mean(weights, targets[k := x]) - Mean(weights, targets)) * Total(weights) == weights[k] * (x - targets[k])
    ensures (forall i :: 0 <= i < |targets| ==> targets[i] == x) ==> Mean(weights, targets) == x
  {
    hide Weighted, Mean, Total;
    WeightedMoves(weights, targets, k, x, |targets|);
    MeanTimes(weights, targets);
    MeanTimes(weights, targets[k := x]);
    Difference(Mean(weights, targets[k := x]), Mean(weights, targets), Total(weights));
    if forall i :: 0 <= i < |targets| ==> targets[i] == x {
      WeightedOfEqual(weights, targets, x, |targets|);
      assert weights[..|targets|] == weights;
      CancelNonZero(Mean(weights, targets), x, Total(weights));
    }
  }

  lemma MeanTimes(weights: seq<real>, targets: seq<real>)
    requires |weights| == |targets| && Total(weights) != 0.0
    ensures Mean(weights, targets) * Total(weights) == Weighted(weights, targets, |targets|)
  {
  }

  lemma CancelNonZero(x: real, y: real, z: real)
    requires z != 0.0 && x * z == y * z
    ensures x == y
  {
  }

  lemma {:induction false} WeightedMoves(weights: seq<real>, targets: seq<real>, k: nat, x: real, n: nat)
    requires k < |weights| == |targets| && n <= |targets|
    ensures Weighted(weights, targets[k := x], n) - Weighted(weights, targets, n)
            == if k < n then weights[k] * (x - targets[k]) else 0.0
  {
    if n > 0 {
      WeightedMoves(weights, targets, k, x, n - 1);
      assert weights[k] * (x - targets[k]) == weights[k] * x - weights[k] * targets[k];
    }
  }

  lemma {:induction false} WeightedOfEqual(weights: seq<real>, targets: seq<real>, x: real, n: nat)
    requires n <= |weights| == |targets| && forall i :: 0 <= i < |targets| ==> targets[i] == x
    ensures Weighted(weights, targets, n) == x * Total(weights[..n])
  {
    if n > 0 {
      WeightedOfEqual(weights, targets, x, n - 1);
      assert weights[..n][..n - 1] == weights[..n - 1];
      assert x * Total(weights[..n]) == x * Total(weights[..n - 1]) + x * weights[n - 1];
    }
  }

  lemma TotalMoves(s: seq<real>, k: nat, x: real)
    requires k < |s|
    ensures Total(s[k := x]) - Total(s) == x - s[k]
  {
    assert s == s[..k] + [s[k]] + s[k + 1..] && s[k := x] == s[..k] + [x] + s[k + 1..];
    TotalJoin(s[..k] + [s[k]], s[k + 1..]);
    TotalJoin(s[..k] + [x], s[k + 1..]);
    TotalJoin(s[..k], [s[k]]);
    TotalJoin(s[..k], [x]);
  }

  function Closes(history: seq<(int, real)>): seq<real> {
    seq(|history|, i requires 0 <= i < |history| => history[i].1)
  }

  lemma ClosesInOrder(history: seq<(int, real)>, day: int, close: real)
    ensures Closes([]) == [] && Closes(history + [(day, close)]) == Closes(history) + [close]
  {
  }

  lemma NothingGrown(signals: seq<TrendSignal>, symbol: string)
    ensures forall i :: 0 <= i < |signals| ==> Grown(signals[i].history, signals[i].history, symbol, [])
  {
  }

  class EnsembleStrategy {
    const signals: seq<TrendSignal>
    const weights: seq<real>

    constructor (signals: seq<TrendSignal>, weights: seq<real>)
      requires |weights| == |signals|
      ensures this.signals == signals && this.weights == weights
    {
      this.signals, this.weights := signals, weights;
    }

    method CombinedTarget(symbol: string, price: real) returns (target: real)
      requires Separate(signals) && AllValid(signals) && |weights| == |signals| && Total(weights) != 0.0
      modifies signals
      ensures AllValid(signals)
      ensures forall i :: 0 <= i < |signals| ==> Grown(signals[i].history, old(signals[i].history), symbol, [price])
      ensures target == Mean(weights, TargetsFor(signals, symbol))
    {
      hide AllValid, TargetsFor, Grown;
      var targets := UpdateAll(signals, symbol, price);
      target := Mean(weights, targets);
    }

    /** The closes of a symbol in order, as a backtest feeds them. */
    method Replay(symbol: string, closes: seq<(int, real)>) returns (target: real)
      requires Separate(signals) && AllValid(signals) && |weights| == |signals| && Total(weights) != 0.0 && closes != []
      modifies signals
      ensures AllValid(signals)
      ensures forall i :: 0 <= i < |signals| ==>
        Grown(signals[i].history, old(signals[i].history), symbol, Closes(closes))
      ensures target == Mean(weights, TargetsFor(signals, symbol))
    {
      hide AllValid, TargetsFor, Grown, Separate, Mean;
      target := 0.0;
      NothingGrown(signals, symbol);
      assert Closes(closes[..0]) == [];
      for n := 0 to |closes|
        invariant AllValid(signals)
        invariant forall i :: 0 <= i < |signals| ==>
          Grown(signals[i].history, old(signals[i].history), symbol, Closes(closes[..n]))
        invariant n > 0 ==> target == Mean(weights, TargetsFor(signals, symbol))
      {
        ghost var before := seq(|signals|, i requires 0 <= i < |signals| reads signals => signals[i].history);
        target := CombinedTarget(symbol, closes[n].1);
        forall i | 0 <= i < |signals|
          ensures Grown(signals[i].history, old(signals[i].history), symbol, Closes(closes[..n + 1]))
        {
          assert Closes(closes[..n + 1]) == Closes(closes[..n]) + [closes[n].1];
          GrownTwice(signals[i].history, before[i], old(signals[i].history), symbol, Closes(closes[..n]),
                     [closes[n].1]);
        }
      }
      assert closes[..|closes|] == closes;
    }
  }

  // ----- The live ensemble -----

  /** history.get(symbol, []) */
  function Past(past: map<string, seq<(int, real)>>, symbol: string): seq<(int, real)> {
    if symbol in past then past[symbol] else []
  }

  function LastClose(past: map<string, seq<(int, real)>>, symbol: string): (int, real)
    requires Past(past, symbol) != []
  {
    Past(past, symbol)[|Past(past, symbol)| - 1]
  }

  /** What a symbol has seen once the given symbols are primed. */
  function Seen(past: map<string, seq<(int, real)>>, symbol: string, primed: set<string>): seq<real> {
    if symbol in primed then Closes(Past(past, symbol)) else []
  }

  lemma SeenIsPast(past: map<string, seq<(int, real)>>, symbol: string, primed: set<string>)
    ensures symbol in primed && symbol in past ==> Seen(past, symbol, primed) == Closes(past[symbol])
    ensures symbol !in primed || symbol !in past ==> Seen(past, symbol, primed) == []
  {
  }

  function PrimedTargets(params: seq<Params>, before: seq<map<string, seq<real>>>, past: map<string, seq<(int, real)>>,
                         symbol: string): (t: seq<real>)
    requires |params| == |before| && forall i :: 0 <= i < |params| ==> Usable(params[i])
  {
    seq(|params|, i requires 0 <= i < |params| =>
          TargetAt(params[i], ClosesIn(before[i], symbol) + Closes(Past(past, symbol))))
  }

  lemma ParamsUsable(signals: seq<TrendSignal>)
    requires AllValid(signals)
    ensures forall i :: 0 <= i < |signals| ==> Usable(signals[i].p)
  {
  }

  /** Each signal has seen, of each symbol, what it had seen before and the past of the primed symbols. */
  ghost predicate HaveSeen(signals: seq<TrendSignal>, before: seq<map<string, seq<real>>>,
                           past: map<string, seq<(int, real)>>, primed: set<string>)
    requires |before| == |signals|
    reads signals
  {
    forall i, s :: 0 <= i < |signals| ==> signals[i].History(s) == ClosesIn(before[i], s) + Seen(past, s, primed)
  }

  lemma TargetsArePrimed(signals: seq<TrendSignal>, params: seq<Params>, before: seq<map<string, seq<real>>>,
                         past: map<string, seq<(int, real)>>, primed: set<string>, symbol: string)
    requires AllValid(signals) && |params| == |before| == |signals| && symbol in primed
    requires forall i :: 0 <= i < |signals| ==> params[i] == signals[i].p && Usable(params[i])
    requires HaveSeen(signals, before, past, primed)
    ensures TargetsFor(signals, symbol) == PrimedTargets(params, before, past, symbol)
  {
    hide TargetAt, Closes;
    forall i | 0 <= i < |signals|
      ensures signals[i].History(symbol) == ClosesIn(before[i], symbol) + Closes(Past(past, symbol))
    {
      assert signals[i].History(symbol) == ClosesIn(before[i], symbol) + Seen(past, symbol, primed);
    }
  }

  /** One entry for every primed symbol with a past, on its last day, and no other. */
  ghost predicate OncePerSymbol(first: seq<(string, int, seq<real>)>, past: map<string, seq<(int, real)>>,
                                primed: set<string>)
  {
    && (forall s :: s in primed && Past(past, s) != [] <==> exists k :: 0 <= k < |first| && first[k].0 == s)
    && (forall j, k :: 0 <= j < k < |first| ==> first[j].0 != first[k].0)
    && (forall k :: 0 <= k < |first| ==> Past(past, first[k].0) != [] && first[k].1 == LastClose(past, first[k].0).0)
  }

  function LastDays(past: map<string, seq<(int, real)>>, primed: set<string>): map<string, int> {
    map s | s in primed && Past(past, s) != [] :: LastClose(past, s).0
  }

  function LastPrices(past: map<string, seq<(int, real)>>, primed: set<string>): map<string, real> {
    map s | s in primed && Past(past, s) != [] :: LastClose(past, s).1
  }

  lemma LastOnesGrow(past: map<string, seq<(int, real)>>, primed: set<string>, symbol: string)
    requires symbol !in primed
    ensures LastDays(past, primed + {symbol}) == if Past(past, symbol) == [] then LastDays(past, primed)
                                                 else LastDays(past, primed)[symbol := LastClose(past, symbol).0]
    ensures LastPrices(past, primed + {symbol}) == if Past(past, symbol) == [] then LastPrices(past, primed)
                                                   else LastPrices(past, primed)[symbol := LastClose(past, symbol).1]
    ensures Past(past, symbol) != [] ==> LastClose(past, symbol) == Past(past, symbol)[|Past(past, symbol)| - 1]
  {
    hide Past;
  }

  lemma OneMore(first: seq<(string, int, seq<real>)>, past: map<string, seq<(int, real)>>, primed: set<string>,
                symbol: string, targets: seq<real>)
    requires OncePerSymbol(first, past, primed) && symbol !in primed
    ensures Past(past, symbol) == [] ==> OncePerSymbol(first, past, primed + {symbol})
    ensures Past(past, symbol) != [] ==>
      OncePerSymbol(first + [(symbol, LastClose(past, symbol).0, targets)], past, primed + {symbol})
  {
    hide Past, LastClose;
    if Past(past, symbol) != [] {
      var more := first + [(symbol, LastClose(past, symbol).0, targets)];
      assert more[|first|].0 == symbol;
      forall s
        ensures s in primed + {symbol} && Past(past, s) != [] <==> exists k :: 0 <= k < |more| && more[k].0 == s
      {
        if k :| 0 <= k < |first| && first[k].0 == s {
          assert more[k].0 == s;
        }
      }
    }
  }

  lemma NothingPrimed(past: map<string, seq<(int, real)>>, primed: set<string>)
    requires primed == {}
    ensures OncePerSymbol([], past, primed) && LastDays(past, primed) == map[] && LastPrices(past, primed) == map[]
  {
  }

  lemma OnceAt(first: seq<(string, int, seq<real>)>, past: map<string, seq<(int, real)>>, primed: set<string>, k: nat)
    requires OncePerSymbol(first, past, primed) && k < |first|
    ensures first[k].0 in primed
  {
  }

  lemma NothingSeen(signals: seq<TrendSignal>, before: seq<map<string, seq<real>>>, past: map<string, seq<(int, real)>>,
                    primed: set<string>)
    requires |before| == |signals| && forall i :: 0 <= i < |signals| ==> before[i] == signals[i].history
    requires primed == {}
    ensures HaveSeen(signals, before, past, primed)
  {
  }

  lemma SeenAre(signals: seq<TrendSignal>, already: seq<map<string, seq<real>>>, before: seq<map<string, seq<real>>>,
                past: map<string, seq<(int, real)>>, primed: set<string>)
    requires |before| == |already| == |signals| && HaveSeen(signals, before, past, primed)
    requires forall i :: 0 <= i < |signals| ==> already[i] == signals[i].history
    ensures SawBefore(already, before, past, primed)
  {
    hide Seen;
  }

  /** HaveSeen of histories kept from an earlier moment. */
  ghost predicate SawBefore(already: seq<map<string, seq<real>>>, before: seq<map<string, seq<real>>>,
                            past: map<string, seq<(int, real)>>, primed: set<string>)
    requires |before| == |already|
  {
    forall i, s :: 0 <= i < |already| ==> ClosesIn(already[i], s) == ClosesIn(before[i], s) + Seen(past, s, primed)
  }

  lemma SeenMeans(signals: seq<TrendSignal>, before: seq<map<string, seq<real>>>, past: map<string, seq<(int, real)>>,
                  primed: set<string>)
    requires |before| == |signals| && HaveSeen(signals, before, past, primed)
    ensures forall i, s :: 0 <= i < |signals| ==>
      signals[i].History(s) == ClosesIn(before[i], s) + Seen(past, s, primed)
  {
  }

  lemma GrownAt(after: map<string, seq<real>>, before: map<string, seq<real>>, symbol: string, more: seq<real>,
                s: string)
    requires Grown(after, before, symbol, more)
    ensures ClosesIn(after, s) == if s == symbol then ClosesIn(before, s) + more else ClosesIn(before, s)
  {
    if s != symbol {
      assert s in after <==> s in after - {symbol};
      assert s in before <==> s in before - {symbol};
      assert s in after ==> after[s] == (after - {symbol})[s];
      assert s in before ==> before[s] == (before - {symbol})[s];
    }
  }

  /** Priming one more symbol. */
  lemma SeenNext(signals: seq<TrendSignal>, already: seq<map<string, seq<real>>>, before: seq<map<string, seq<real>>>,
                 past: map<string, seq<(int, real)>>, primed: set<string>, symbol: string)
    requires |before| == |already| == |signals| && symbol !in primed && SawBefore(already, before, past, primed)
    requires forall i :: 0 <= i < |signals| ==>
      Grown(signals[i].history, already[i], symbol, Closes(Past(past, symbol)))
    ensures HaveSeen(signals, before, past, primed + {symbol})
  {
    hide Grown, Closes;
    forall i, s | 0 <= i < |signals|
      ensures signals[i].History(s) == ClosesIn(before[i], s) + Seen(past, s, primed + {symbol})
    {
      GrownAt(signals[i].history, already[i], symbol, Closes(Past(past, symbol)), s);
      assert ClosesIn(already[i], s) == ClosesIn(before[i], s) + Seen(past, s, primed);
    }
  }

  class LiveEnsemble {
    const symbols: set<string>
    const names: seq<string>
    const signals: seq<TrendSignal>
    var curDay: map<string, int>
    var dayClose: map<string, real>

    constructor (symbols: set<string>, names: seq<string>, signals: seq<TrendSignal>)
      requires |names| == |signals|
      ensures this.symbols == symbols && this.names == names && this.signals == signals
      ensures curDay == map[] && dayClose == map[]
    {
      this.symbols, this.names, this.signals := symbols, names, signals;
      curDay, dayClose := map[], map[];
    }

    /** The inner loop of prime: every close of one symbol in order; only the targets of the last one are kept. */
    method PrimeSymbol(symbol: string, closes: seq<(int, real)>) returns (perLoad: Option<seq<real>>)
      requires Separate(signals) && AllValid(signals)
      modifies this, signals
      ensures AllValid(signals)
      ensures forall i :: 0 <= i < |signals| ==>
        Grown(signals[i].history, old(signals[i].history), symbol, Closes(closes))
      ensures perLoad == if closes == [] then None else Some(TargetsFor(signals, symbol))
      ensures curDay == if closes == [] then old(curDay) else old(curDay)[symbol := closes[|closes| - 1].0]
      ensures dayClose == if closes == [] then old(dayClose) else old(dayClose)[symbol := closes[|closes| - 1].1]
    {
      hide AllValid, TargetsFor, Grown, Separate;
      perLoad := None;
      NothingGrown(signals, symbol);
      assert Closes(closes[..0]) == [];
      for n := 0 to |closes|
        invariant AllValid(signals) && unchanged(this)
        invariant forall i :: 0 <= i < |signals| ==>
          Grown(signals[i].history, old(signals[i].history), symbol, Closes(closes[..n]))
        invariant perLoad == if n == 0 then None else Some(TargetsFor(signals, symbol))
      {
        ghost var before := seq(|signals|, i requires 0 <= i < |signals| reads signals => signals[i].history);
        var targets := UpdateAll(signals, symbol, closes[n].1);
        perLoad := Some(targets);
        forall i | 0 <= i < |signals|
          ensures Grown(signals[i].history, old(signals[i].history), symbol, Closes(closes[..n + 1]))
        {
          assert Closes(closes[..n + 1]) == Closes(closes[..n]) + [closes[n].1];
          GrownTwice(signals[i].history, before[i], old(signals[i].history), symbol, Closes(closes[..n]),
                     [closes[n].1]);
        }
      }
      assert closes[..|closes|] == closes;
      if closes != [] {
        curDay := curDay[symbol := closes[|closes| - 1].0];
        dayClose := dayClose[symbol := closes[|closes| - 1].1];
      }
    }

    /** Every configured symbol sees its whole history, whichever comes first; each one with a history gives one first
        signal, the targets of that history, and continues from its last day. */
    method Prime(past: map<string, seq<(int, real)>>) returns (first: seq<(string, int, seq<real>)>)
      requires Separate(signals) && AllValid(signals)
      modifies this, signals
      ensures AllValid(signals)
      ensures forall i, s :: 0 <= i < |signals| ==>
        signals[i].History(s) == ClosesIn(old(signals[i].history), s) + Seen(past, s, symbols)
      ensures OncePerSymbol(first, past, symbols)
      ensures forall k :: 0 <= k < |first| ==> first[k].2 == TargetsFor(signals, first[k].0)
      ensures curDay == old(curDay) + LastDays(past, symbols) && dayClose == old(dayClose) + LastPrices(past, symbols)
    {
      hide *;
      first := [];
      var rest := symbols;
      ghost var params := seq(|signals|, i requires 0 <= i < |signals| reads signals => signals[i].p);
      ghost var before := seq(|signals|, i requires 0 <= i < |signals| reads signals => signals[i].history);
      ParamsUsable(signals);
      NothingPrimed(past, symbols - rest);
      NothingSeen(signals, before, past, symbols - rest);
      while rest != {}
        invariant rest <= symbols && AllValid(signals)
        invariant HaveSeen(signals, before, past, symbols - rest)
        invariant OncePerSymbol(first, past, symbols - rest)
        invariant forall k :: 0 <= k < |first| ==> first[k].2 == PrimedTargets(params, before, past, first[k].0)
        invariant curDay == old(curDay) + LastDays(past, symbols - rest)
        invariant dayClose == old(dayClose) + LastPrices(past, symbols - rest)
      {
        var symbol :| symbol in rest;
        ghost var already := seq(|signals|, i requires 0 <= i < |signals| reads signals => signals[i].history);
        SeenAre(signals, already, before, past, symbols - rest);
        var perLoad := PrimeSymbol(symbol, Past(past, symbol));
        SeenNext(signals, already, before, past, symbols - rest, symbol);
        TargetsArePrimed(signals, params, before, past, symbols - rest + {symbol}, symbol);
        LastOnesGrow(past, symbols - rest, symbol);
        OneMore(first, past, symbols - rest, symbol, TargetsFor(signals, symbol));
        if perLoad.Some? {
          first := first + [(symbol, LastClose(past, symbol).0, perLoad.value)];
        }
        assert symbols - (rest - {symbol}) == symbols - rest + {symbol};
        assert curDay == old(curDay) + LastDays(past, symbols - rest + {symbol});
        assert dayClose == old(dayClose) + LastPrices(past, symbols - rest + {symbol});
        rest := rest - {symbol};
      }
      assert symbols - rest == symbols;
      forall k | 0 <= k < |first|
        ensures first[k].2 == TargetsFor(signals, first[k].0)
      {
        OnceAt(first, past, symbols, k);
        TargetsArePrimed(signals, params, before, past, symbols, first[k].0);
      }
      SeenMeans(signals, before, past, symbols);
    }

    /** A tick of a later day closes the current one: its last price is fed as the close. */
    method OnTick(symbol: string, price: real, day: int) returns (perLoad: Option<seq<real>>)
      requires Separate(signals) && AllValid(signals)
      modifies this, signals
      ensures AllValid(signals)
      ensures perLoad.Some? <==>
        symbol in symbols && symbol in old(curDay) && symbol in old(dayClose) && day > old(curDay)[symbol]
      ensures if perLoad.Some?
        then (forall i :: 0 <= i < |signals| ==>
                Grown(signals[i].history, old(signals[i].history), symbol, [old(dayClose)[symbol]]))
             && perLoad.value == TargetsFor(signals, symbol)
        else forall i :: 0 <= i < |signals| ==> signals[i].history == old(signals[i].history)
      ensures symbol !in symbols ==> curDay == old(curDay) && dayClose == old(dayClose)
      ensures symbol in symbols && !(symbol in old(curDay) && symbol in old(dayClose)) ==>
        curDay == old(curDay)[symbol := day] && dayClose == old(dayClose)[symbol := price]
      ensures symbol in symbols && symbol in old(curDay) && symbol in old(dayClose) ==>
        && curDay == old(curDay)[symbol := if day > old(curDay)[symbol] then day else old(curDay)[symbol]]
        && dayClose == (if day >= old(curDay)[symbol] then old(dayClose)[symbol := price] else old(dayClose))
    {
      hide TargetAt;
      if symbol !in symbols {
        return None;
      }
      if symbol !in curDay || symbol !in dayClose {
        curDay, dayClose := curDay[symbol := day], dayClose[symbol := price];
        return None;
      }
      if day <= curDay[symbol] {
        if day == curDay[symbol] {
          dayClose := dayClose[symbol := price];
        }
        return None;
      }
      var targets := UpdateAll(signals, symbol, dayClose[symbol]);
      curDay, dayClose := curDay[symbol := day], dayClose[symbol := price];
      return Some(targets);
    }
  }

  // ----- Combining the loads of one bar -----

  function WeightOf(weights: map<string, real>, name: string): real {
    if name in weights then weights[name] else 0.0
  }

  function WeightSum(weights: map<string, real>, roster: seq<string>, n: nat): real
    requires n <= |roster|
  {
    if n == 0 then 0.0 else WeightSum(weights, roster, n - 1) + WeightOf(weights, roster[n - 1])
  }

  predicate RosterReady(latest: map<string, (int, real)>, roster: seq<string>, bar: int) {
    forall i :: 0 <= i < |roster| ==> roster[i] in latest && latest[roster[i]].0 == bar
  }

  function WeightedLatest(latest: map<string, (int, real)>, roster: seq<string>, weights: map<string, real>,
                          n: nat): real
    requires n <= |roster| && forall i :: 0 <= i < |roster| ==> roster[i] in latest
  {
    if n == 0 then 0.0
    else WeightedLatest(latest, roster, weights, n - 1) + WeightOf(weights, roster[n - 1]) * latest[roster[n - 1]].1
  }

  /** combined_for_bar: waits until every load has reported the bar. */
  function CombinedForBar(latest: map<string, (int, real)>, roster: seq<string>, bar: int, weights: map<string, real>)
    : Option<real>
  {
    if !RosterReady(latest, roster, bar) then None
    else
      var wsum := WeightSum(weights, roster, |roster|);
      if wsum <= 0.0 then None else Some(WeightedLatest(latest, roster, weights, |roster|) / wsum)
  }

  /** {name: (day, target)} over the loads in order. */
  function LatestOf(names: seq<string>, targets: seq<real>, day: int, n: nat): map<string, (int, real)>
    requires n <= |names| == |targets|
  {
    if n == 0 then map[] else LatestOf(names, targets, day, n - 1)[names[n - 1] := (day, targets[n - 1])]
  }

  predicate DistinctNames(names: seq<string>) {
    forall i, j :: 0 <= i < j < |names| ==> names[i] != names[j]
  }

  lemma {:induction false} LatestHolds(names: seq<string>, targets: seq<real>, day: int, n: nat)
    requires n <= |names| == |targets| && DistinctNames(names)
    ensures forall i :: 0 <= i < n ==>
      names[i] in LatestOf(names, targets, day, n) && LatestOf(names, targets, day, n)[names[i]] == (day, targets[i])
  {
    if n > 0 {
      LatestHolds(names, targets, day, n - 1);
    }
  }

  predicate Weighs(weights: map<string, real>, names: seq<string>, w: seq<real>) {
    && |w| == |names|
    && forall i :: 0 <= i < |names| ==> w[i] == if names[i] in weights then weights[names[i]] else 0.0
  }

  lemma {:induction false} SumsAgree(names: seq<string>, targets: seq<real>, day: int, weights: map<string, real>,
                                     w: seq<real>, latest: map<string, (int, real)>, n: nat)
    requires n <= |names| == |targets| && Weighs(weights, names, w)
    requires forall i :: 0 <= i < |names| ==> names[i] in latest && latest[names[i]] == (day, targets[i])
    ensures WeightSum(weights, names, n) == Total(w[..n])
    ensures WeightedLatest(latest, names, weights, n) == Weighted(w, targets, n)
  {
    if n > 0 {
      SumsAgree(names, targets, day, weights, w, latest, n - 1);
      assert w[..n][..n - 1] == w[..n - 1];
    }
  }

  lemma {:induction false} LatestKeys(names: seq<string>, targets: seq<real>, day: int, n: nat, i: nat)
    requires n <= i < |names| == |targets| && DistinctNames(names)
    ensures names[i] !in LatestOf(names, targets, day, n)
  {
    if n > 0 {
      LatestKeys(names, targets, day, n - 1, i);
    }
  }

  /** With n loads having reported a day: for the bar of that day, once none is missing and the weights have a positive
      sum, the combination is the weighted mean of the targets; in every other case there is none. */
  lemma CombinedIsMean(names: seq<string>, targets: seq<real>, day: int, n: nat, bar: int, weights: map<string, real>,
                       w: seq<real>)
    requires n <= |names| == |targets| && DistinctNames(names) && Weighs(weights, names, w)
    ensures |w| == |names|
    ensures CombinedForBar(LatestOf(names, targets, day, n), names, bar, weights)
         == if n == |names| && bar == day && Total(w) > 0.0 then Some(Mean(w, targets)) else None
  {
    hide Weighs;
    var latest := LatestOf(names, targets, day, n);
    WeighsLength(weights, names, w);
    if n < |names| {
      LatestKeys(names, targets, day, n, n);
    } else {
      LatestHolds(names, targets, day, n);
      SumsAgree(names, targets, day, weights, w, latest, n);
      assert w[..n] == w;
      if bar != day && names != [] {
        assert latest[names[0]].0 != bar;
      }
    }
  }

  /** One load that has not reported the bar, or has reported another one, holds the combination back. */
  lemma OneMissingHoldsBack(latest: map<string, (int, real)>, roster: seq<string>, bar: int,
                            weights: map<string, real>, i: nat)
    requires i < |roster| && (roster[i] !in latest || latest[roster[i]].0 != bar)
    ensures CombinedForBar(latest, roster, bar, weights).None?
  {
    hide WeightSum, WeightedLatest;
    assert !RosterReady(latest, roster, bar);
  }

  lemma WeighsLength(weights: map<string, real>, names: seq<string>, w: seq<real>)
    requires Weighs(weights, names, w)
    ensures |w| == |names|
  {
  }

  lemma FirstCloses(after: map<string, seq<real>>, before: map<string, seq<real>>, symbol: string, more: seq<real>)
    requires Grown(after, before, symbol, more) && ClosesIn(before, symbol) == []
    ensures ClosesIn(after, symbol) == more
  {
  }

  lemma SameTargets(a: seq<TrendSignal>, b: seq<TrendSignal>, symbol: string)
    requires AllValid(a) && AllValid(b) && |a| == |b|
    requires forall i :: 0 <= i < |a| ==> a[i].p == b[i].p && a[i].History(symbol) == b[i].History(symbol)
    ensures TargetsFor(a, symbol) == TargetsFor(b, symbol)
  {
    hide TargetAt;
  }

  lemma TargetsWithin(signals: seq<TrendSignal>, symbol: string, top: real)
    requires AllValid(signals) && forall i :: 0 <= i < |signals| ==> signals[i].p.maxWeight <= top
    ensures forall i :: 0 <= i < |signals| ==> 0.0 <= TargetsFor(signals, symbol)[i] <= top
  {
    hide TargetAt;
    forall i | 0 <= i < |signals|
      ensures 0.0 <= TargetsFor(signals, symbol)[i] <= top
    {
      TargetInRange(signals[i].p, signals[i].History(symbol));
    }
  }

  /** Priming the live ensemble and combining its loads gives what the backtest ensemble gives after the same closes,
      for any weights with a positive sum, and for non-negative ones within the largest allowed weight. */
  method PrimeMatchesReplay(live: LiveEnsemble, ens: EnsembleStrategy, symbol: string, closes: seq<(int, real)>,
                            weights: map<string, real>, top: real)
    returns (combined: Option<real>, replayed: real)
    requires Separate(live.signals) && Separate(ens.signals) && AllValid(live.signals) && AllValid(ens.signals)
    requires forall i, j :: 0 <= i < |live.signals| && 0 <= j < |ens.signals| ==> live.signals[i] != ens.signals[j]
    requires |live.signals| == |ens.signals| == |live.names| == |ens.weights| && closes != []
    requires forall i :: 0 <= i < |live.signals| ==> live.signals[i].p == ens.signals[i].p
    requires forall i :: 0 <= i < |live.signals| ==>
      live.signals[i].History(symbol) == ens.signals[i].History(symbol) == []
    requires DistinctNames(live.names) && Weighs(weights, live.names, ens.weights) && Total(ens.weights) > 0.0
    modifies live, live.signals, ens.signals
    ensures combined == Some(replayed)
    ensures (forall i :: 0 <= i < |ens.weights| ==> ens.weights[i] >= 0.0 && ens.signals[i].p.maxWeight <= top) ==>
      0.0 <= replayed <= top
  {
    hide TargetAt, TargetsFor, Grown, CombinedForBar, LatestOf, Mean, Weighs, Total;
    var primed := live.PrimeSymbol(symbol, closes);
    var perLoad := primed.value;
    replayed := ens.Replay(symbol, closes);
    forall i | 0 <= i < |ens.signals|
      ensures live.signals[i].History(symbol) == ens.signals[i].History(symbol)
    {
      FirstCloses(live.signals[i].history, old(live.signals[i].history), symbol, Closes(closes));
      FirstCloses(ens.signals[i].history, old(ens.signals[i].history), symbol, Closes(closes));
    }
    SameTargets(live.signals, ens.signals, symbol);
    CombinedIsMean(live.names, perLoad, closes[|closes| - 1].0, |live.names|, closes[|closes| - 1].0, weights,
                   ens.weights);
    combined := CombinedForBar(LatestOf(live.names, perLoad, closes[|closes| - 1].0, |live.names|), live.names,
                               closes[|closes| - 1].0, weights);
    if forall i :: 0 <= i < |ens.weights| ==> ens.weights[i] >= 0.0 && ens.signals[i].p.maxWeight <= top {
      TargetsWithin(ens.signals, symbol, top);
      MeanInRange(ens.weights, perLoad, top);
    }
  }
}
