/** Maximum drawdown of a value series. */
module Metrics {
  import opened Money

  function Peak(values: seq<real>, n: nat): real
    requires 0 < n <= |values|
  {
    if n == 1 then values[0]
    else if values[n - 1] > Peak(values, n - 1) then values[n - 1] else Peak(values, n - 1)
  }

  function Drop(peak: real, v: real): real {
    if peak > 0.0 then (peak - v) / peak else 0.0
  }

  function Drawdown(values: seq<real>, n: nat): real
    requires n <= |values|
  {
    if n == 0 then 0.0
    else
      var drop := Drop(Peak(values, n), values[n - 1]);
      if drop > Drawdown(values, n - 1) then drop else Drawdown(values, n - 1)
  }

  method MaxDrawdown(values: seq<real>) returns (mdd: real)
    ensures mdd == Drawdown(values, |values|)
  {
    hide Drop;
    mdd := 0.0;
    var peak := 0.0;
    for i := 0 to |values|
      invariant i > 0 ==> peak == Peak(values, i)
      invariant mdd == Drawdown(values, i)
    {
      if i == 0 || values[i] > peak {
        peak := values[i];
      }
      var drop := Drop(peak, values[i]);
      if drop > mdd {
        mdd := drop;
      }
    }
  }

  lemma {:induction false} PeakIsHighest(values: seq<real>, n: nat)
    requires 0 < n <= |values|
    ensures forall i :: 0 <= i < n ==> values[i] <= Peak(values, n)
    ensures exists i :: 0 <= i < n && values[i] == Peak(values, n)
  {
    if n > 1 {
      PeakIsHighest(values, n - 1);
      var i :| 0 <= i < n - 1 && values[i] == Peak(values, n - 1);
      assert values[if values[n - 1] > Peak(values, n - 1) then n - 1 else i] == Peak(values, n);
    } else {
      assert values[0] == Peak(values, n);
    }
  }

  /** From a higher peak the same fall to a non-negative value is deeper. */
  lemma HigherPeakFallsDeeper(low: real, high: real, v: real)
    requires low <= high && v >= 0.0
    ensures low > 0.0 ==> Drop(low, v) <= Drop(high, v)
  {
    if low > 0.0 {
      var a, b := v / low, v / high;
      ProductSign(b, high - low);
      assert b >= 0.0 by {
        QuotientBound(v, high, 0.0);
      }
      assert b * low <= v by {
        assert b * high == v && b * (high - low) >= 0.0;
        assert b * low == b * high - b * (high - low);
      }
      QuotientBound(v, low, b);
      assert Drop(low, v) == 1.0 - a by {
        assert (1.0 - a) * low == low - v;
        DropIs(low, v, 1.0 - a);
      }
      assert Drop(high, v) == 1.0 - b by {
        assert (1.0 - b) * high == high - v;
        DropIs(high, v, 1.0 - b);
      }
    }
  }

  lemma DropIs(peak: real, v: real, d: real)
    requires peak > 0.0 && d * peak == peak - v
    ensures Drop(peak, v) == d
  {
    QuotientBound(peak - v, peak, d);
  }

  /** The running value is the worst fall: no fall from an earlier value to a later non-negative one is deeper, nor one
      from the highest value so far to any later one, and unless it is zero such a fall reaches it. */
  lemma {:induction false} DrawdownIsWorstPair(values: seq<real>, n: nat)
    requires n <= |values|
    ensures Drawdown(values, n) >= 0.0
    ensures forall i, j :: 0 <= i <= j < n && (values[j] >= 0.0 || values[i] == Peak(values, j + 1)) ==>
      Drop(values[i], values[j]) <= Drawdown(values, n)
    ensures Drawdown(values, n) > 0.0 ==> exists i, j ::
      0 <= i <= j < n && values[i] == Peak(values, j + 1) && Drop(values[i], values[j]) == Drawdown(values, n)
  {
    hide Drop;
    if n > 0 {
      DrawdownIsWorstPair(values, n - 1);
      PeakIsHighest(values, n);
      forall i | 0 <= i < n && (values[n - 1] >= 0.0 || values[i] == Peak(values, n))
        ensures Drop(values[i], values[n - 1]) <= Drawdown(values, n)
      {
        if values[n - 1] >= 0.0 {
          HigherPeakFallsDeeper(values[i], Peak(values, n), values[n - 1]);
          NoPeakNoDrop(values[i], values[n - 1]);
        }
      }
      var top :| 0 <= top < n && values[top] == Peak(values, n);
      assert Drop(values[top], values[n - 1]) == Drop(Peak(values, n), values[n - 1]);
    }
  }

  /** The lowest positive value so far; zero when there is none. */
  function Lowest(values: seq<real>, n: nat): real
    requires n <= |values|
  {
    if n == 0 then 0.0
    else
      var low, v := Lowest(values, n - 1), values[n - 1];
      if v > 0.0 && (low <= 0.0 || v < low) then v else low
  }

  lemma {:induction false} LowestIs(values: seq<real>, n: nat)
    requires n <= |values|
    ensures forall i :: 0 <= i < n && values[i] > 0.0 ==> 0.0 < Lowest(values, n) <= values[i]
    ensures Lowest(values, n) == 0.0 || exists i :: 0 <= i < n && values[i] == Lowest(values, n)
  {
    if n > 0 {
      LowestIs(values, n - 1);
      if Lowest(values, n) != Lowest(values, n - 1) {
        assert values[n - 1] == Lowest(values, n);
      }
    }
  }

  /** Below zero the same fall is deeper from a lower peak. */
  lemma LowerPeakFallsDeeper(low: real, high: real, v: real)
    requires 0.0 < low <= high && v < 0.0
    ensures Drop(high, v) <= Drop(low, v)
  {
    var b := (high - v) / high;
    assert b * high == high - v;
    QuotientBound(high - v, high, 1.0);
    ProductSign(b - 1.0, high - low);
    assert (b - 1.0) * (high - low) == b * high - b * low - high + low;
    QuotientBound(low - v, low, b);
  }

  /** For any values: the running value is the worst fall of all pairs if and only if no negative value falls deeper
      than it from the lowest positive value before. */
  lemma WorstPairIff(values: seq<real>, n: nat)
    requires n <= |values|
    ensures (forall i, j :: 0 <= i <= j < n ==> Drop(values[i], values[j]) <= Drawdown(values, n))
       <==> (forall j :: 0 <= j < n && values[j] < 0.0 ==>
               Drop(Lowest(values, j + 1), values[j]) <= Drawdown(values, n))
  {
    hide Drop;
    var worst := Drawdown(values, n);
    DrawdownIsWorstPair(values, n);
    if forall i, j :: 0 <= i <= j < n ==> Drop(values[i], values[j]) <= worst {
      forall j | 0 <= j < n && values[j] < 0.0
        ensures Drop(Lowest(values, j + 1), values[j]) <= worst
      {
        LowestIs(values, j + 1);
        NoPeakNoDrop(Lowest(values, j + 1), values[j]);
      }
    }
    if forall j :: 0 <= j < n && values[j] < 0.0 ==> Drop(Lowest(values, j + 1), values[j]) <= worst {
      forall i, j | 0 <= i <= j < n
        ensures Drop(values[i], values[j]) <= worst
      {
        LowestIs(values, j + 1);
        NoPeakNoDrop(values[i], values[j]);
        if values[j] < 0.0 && values[i] > 0.0 {
          LowerPeakFallsDeeper(Lowest(values, j + 1), values[i], values[j]);
        }
      }
    }
  }

  /** Relative to a lower peak a fall below zero can be deeper than the one reported. */
  lemma BelowZeroFallsDeeper()
    ensures Drawdown([1.0, 2.0, -1.0], 3) == 1.5 && Drop(1.0, -1.0) == 2.0
  {
    var v := [1.0, 2.0, -1.0];
    assert Peak(v, 1) == 1.0 && Peak(v, 2) == 2.0 && Peak(v, 3) == 2.0;
    assert Drawdown(v, 1) == 0.0 && Drawdown(v, 2) == 0.0;
  }

  lemma NoPeakNoDrop(peak: real, v: real)
    ensures peak <= 0.0 ==> Drop(peak, v) == 0.0
  {
  }
}
