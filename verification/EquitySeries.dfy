/** Equity series of several markets merged into one total in won. Dates are day numbers. */
module EquitySeries {
  import opened Dict

  type Points = seq<(int, real)>

  predicate Ascending(pts: Points) {
    forall i, j :: 0 <= i < j < |pts| ==> pts[i].0 <= pts[j].0
  }

  /** The latest value on or before a day. */
  function Latest(pts: Points, d: int): Option<real> {
    if pts == [] then None
    else if pts[|pts| - 1].0 <= d then Some(pts[|pts| - 1].1)
    else Latest(pts[..|pts| - 1], d)
  }

  /** A position that splits an ascending series at a day points just past its latest value. */
  lemma {:induction false} SplitIsLatest(pts: Points, d: int, i: nat)
    requires i <= |pts|
    requires (forall k :: 0 <= k < i ==> pts[k].0 <= d) && forall k :: i <= k < |pts| ==> d < pts[k].0
    ensures Latest(pts, d) == if i == 0 then None else Some(pts[i - 1].1)
  {
    if i < |pts| {
      SplitIsLatest(pts[..|pts| - 1], d, i);
    }
  }

  /** _fx_at: bisect_right on the dates, then one back. */
  method FxAt(fx: Points, d: int) returns (rate: Option<real>)
    requires Ascending(fx)
    ensures rate == Latest(fx, d)
  {
    var lo, hi := 0, |fx|;
    while lo < hi
      invariant 0 <= lo <= hi <= |fx|
      invariant forall k :: 0 <= k < lo ==> fx[k].0 <= d
      invariant forall k :: hi <= k < |fx| ==> d < fx[k].0
    {
      var mid := (lo + hi) / 2;
      if d < fx[mid].0 {
        hi := mid;
      } else {
        lo := mid + 1;
      }
    }
    SplitIsLatest(fx, d, lo);
    rate := if lo > 0 then Some(fx[lo - 1].1) else None;
  }

  // ----- The days that count -----

  predicate Rising(dates: seq<int>) {
    forall i, j :: 0 <= i < j < |dates| ==> dates[i] < dates[j]
  }

  /** Adding a day to a sorted set. */
  function InsertDay(dates: seq<int>, d: int): seq<int> {
    if dates == [] then [d]
    else if d < dates[0] then [d] + dates
    else if d == dates[0] then dates
    else [dates[0]] + InsertDay(dates[1..], d)
  }

  lemma {:induction false} InsertDayRises(dates: seq<int>, d: int)
    requires Rising(dates)
    ensures Rising(InsertDay(dates, d))
    ensures forall x :: x in InsertDay(dates, d) <==> x in dates || x == d
  {
    if dates != [] && d > dates[0] {
      InsertDayRises(dates[1..], d);
      var rest := InsertDay(dates[1..], d);
      forall i | 0 <= i < |rest|
        ensures dates[0] < rest[i]
      {
        assert rest[i] in rest;
      }
      assert dates == [dates[0]] + dates[1..];
    }
  }

  /** Days of the first n points that are not before the start, added to a sorted set. */
  function DaysOf(pts: Points, n: nat, start: int, known: seq<int>): seq<int>
    requires n <= |pts|
  {
    if n == 0 then known
    else
      var front := DaysOf(pts, n - 1, start, known);
      if pts[n - 1].0 >= start then InsertDay(front, pts[n - 1].0) else front
  }

  function Days(active: Dict<string, Points>, n: nat, start: int): seq<int>
    requires n <= |active|
  {
    if n == 0 then [] else DaysOf(active[n - 1].1, |active[n - 1].1|, start, Days(active, n - 1, start))
  }

  predicate Observed(active: Dict<string, Points>, n: nat, start: int, d: int)
    requires n <= |active|
  {
    d >= start && exists m, i :: 0 <= m < n && 0 <= i < |active[m].1| && active[m].1[i].0 == d
  }

  lemma {:induction false} DaysOfAre(pts: Points, n: nat, start: int, known: seq<int>)
    requires n <= |pts| && Rising(known)
    ensures Rising(DaysOf(pts, n, start, known))
    ensures forall d :: d in DaysOf(pts, n, start, known) <==>
      d in known || (d >= start && exists i :: 0 <= i < n && pts[i].0 == d)
  {
    if n > 0 {
      DaysOfAre(pts, n - 1, start, known);
      if pts[n - 1].0 >= start {
        InsertDayRises(DaysOf(pts, n - 1, start, known), pts[n - 1].0);
      }
    }
  }

  /** The days of the total: strictly rising, exactly the observed ones from the start on. */
  lemma {:induction false} DaysAreObserved(active: Dict<string, Points>, n: nat, start: int)
    requires n <= |active|
    ensures Rising(Days(active, n, start))
    ensures forall d :: d in Days(active, n, start) <==> Observed(active, n, start, d)
  {
    if n > 0 {
      DaysAreObserved(active, n - 1, start);
      var pts := active[n - 1].1;
      DaysOfAre(pts, |pts|, start, Days(active, n - 1, start));
      forall d
        ensures d in Days(active, n, start) <==> Observed(active, n, start, d)
      {
        if Observed(active, n, start, d) {
          var m, i :| 0 <= m < n && 0 <= i < |active[m].1| && active[m].1[i].0 == d;
          assert m == n - 1 || Observed(active, n - 1, start, d);
        }
        if d in Days(active, n, start) && d !in Days(active, n - 1, start) {
          var i :| 0 <= i < |pts| && pts[i].0 == d;
          assert active[n - 1].1[i].0 == d;
        }
      }
    }
  }

  // ----- The simple form -----

  predicate HasUs(active: Dict<string, Points>) {
    exists i :: 0 <= i < |active| && active[i].0 == "US"
  }

  /** A market's value on a day in won: forward-filled, US at the forward-filled rate. */
  function InWon(market: (string, Points), fx: Points, d: int): Option<real> {
    match Latest(market.1, d)
    case None => None
    case Some(v) =>
      if market.0 != "US" then Some(v)
      else match Latest(fx, d) case None => None case Some(rate) => Some(v * rate)
  }

  function TotalOf(active: Dict<string, Points>, k: nat, fx: Points, d: int): Option<real>
    requires k <= |active|
  {
    if k == 0 then Some(0.0)
    else
      match TotalOf(active, k - 1, fx, d)
      case None => None
      case Some(sum) => match InWon(active[k - 1], fx, d) case None => None case Some(v) => Some(sum + v)
  }

  /** One row per day that has a total. */
  function Rows(active: Dict<string, Points>, fx: Points, dates: seq<int>, n: nat): Points
    requires n <= |dates|
  {
    if n == 0 then []
    else
      var front := Rows(active, fx, dates, n - 1);
      match TotalOf(active, |active|, fx, dates[n - 1])
      case None => front
      case Some(sum) => front + [(dates[n - 1], sum)]
  }

  function Active(series: Dict<string, Points>): Dict<string, Points> {
    if series == [] then []
    else if series[0].1 == [] then Active(series[1..])
    else [series[0]] + Active(series[1..])
  }

  lemma {:induction false} ActiveHasPoints(series: Dict<string, Points>)
    requires forall i :: 0 <= i < |series| ==> Ascending(series[i].1)
    ensures forall i :: 0 <= i < |Active(series)| ==> Active(series)[i].1 != [] && Ascending(Active(series)[i].1)
  {
    if series != [] {
      ActiveHasPoints(series[1..]);
    }
  }

  /** The markets that take part: those with any point. */
  lemma {:induction false} ActiveAre(series: Dict<string, Points>, market: (string, Points))
    ensures market in Active(series) <==> market in series && market.1 != []
  {
    if series != [] {
      ActiveAre(series[1..], market);
      assert series == [series[0]] + series[1..];
    }
  }

  /** What one market adds to a total: its latest value, dollars times the latest rate. */
  lemma AddsInWon(active: Dict<string, Points>, k: nat, fx: Points, d: int)
    requires k < |active| && TotalOf(active, k + 1, fx, d).Some?
    ensures TotalOf(active, k, fx, d).Some? && Latest(active[k].1, d).Some?
    ensures active[k].0 == "US" ==> Latest(fx, d).Some?
    ensures TotalOf(active, k + 1, fx, d).value - TotalOf(active, k, fx, d).value
         == if active[k].0 == "US" then Latest(active[k].1, d).value * Latest(fx, d).value
            else Latest(active[k].1, d).value
  {
    hide Latest;
  }

  /** The day every participating market has begun. */
  function Start(active: Dict<string, Points>): int
    requires active != [] && forall i :: 0 <= i < |active| ==> active[i].1 != []
  {
    var first := active[0].1[0].0;
    if |active| == 1 then first else
      var rest := Start(active[1..]);
      if first > rest then first else rest
  }

  lemma {:induction false} StartIsLatestFirst(active: Dict<string, Points>)
    requires active != [] && forall i :: 0 <= i < |active| ==> active[i].1 != []
    ensures forall i :: 0 <= i < |active| ==> active[i].1[0].0 <= Start(active)
    ensures exists i :: 0 <= i < |active| && active[i].1[0].0 == Start(active)
  {
    var rest := active[1..];
    if rest != [] {
      StartIsLatestFirst(rest);
      forall i | 0 <= i < |active|
        ensures active[i].1[0].0 <= Start(active)
      {
        assert i > 0 ==> active[i] == rest[i - 1];
      }
      var j :| 0 <= j < |rest| && rest[j].1[0].0 == Start(rest);
      assert active[j + 1] == rest[j];
      assert active[if active[0].1[0].0 > Start(rest) then 0 else j + 1].1[0].0 == Start(active);
    } else {
      assert active[0].1[0].0 == Start(active);
    }
  }

  lemma {:induction false} BegunHasValue(pts: Points, d: int)
    requires pts != [] && pts[0].0 <= d
    ensures Latest(pts, d).Some?
  {
    if |pts| > 1 && pts[|pts| - 1].0 > d {
      BegunHasValue(pts[..|pts| - 1], d);
    }
  }

  /** From the start on, the only thing that can be missing is the rate, and only when US takes part. */
  lemma {:induction false} MissingMeansNoRate(active: Dict<string, Points>, k: nat, fx: Points, d: int)
    requires k <= |active| && forall i :: 0 <= i < |active| ==> active[i].1 != [] && active[i].1[0].0 <= d
    ensures TotalOf(active, k, fx, d).None? <==> Latest(fx, d).None? && exists i :: 0 <= i < k && active[i].0 == "US"
  {
    if k > 0 {
      MissingMeansNoRate(active, k - 1, fx, d);
      BegunHasValue(active[k - 1].1, d);
    }
  }

  // ----- The two-pointer form -----

  /** Advances one market's pointer past every point up to the day. */
  method Advance(pts: Points, d: int, i0: nat, last0: Option<real>) returns (i: nat, last: Option<real>)
    requires Ascending(pts) && i0 <= |pts|
    requires forall k :: 0 <= k < i0 ==> pts[k].0 <= d
    requires last0 == if i0 == 0 then None else Some(pts[i0 - 1].1)
    ensures i <= |pts| && (forall k :: 0 <= k < i ==> pts[k].0 <= d)
    ensures last == Latest(pts, d) == if i == 0 then None else Some(pts[i - 1].1)
  {
    i, last := i0, last0;
    while i < |pts| && pts[i].0 <= d
      invariant i0 <= i <= |pts| && forall k :: 0 <= k < i ==> pts[k].0 <= d
      invariant last == if i == 0 then None else Some(pts[i - 1].1)
    {
      last := Some(pts[i].1);
      i := i + 1;
    }
    SplitIsLatest(pts, d, i);
  }

  /** Pointers and last values agree with some day that is not in the future. */
  predicate Pointed(active: Dict<string, Points>, idx: seq<nat>, last: seq<Option<real>>, d: int) {
    && |idx| == |last| == |active|
    && forall m :: 0 <= m < |active| ==>
         && idx[m] <= |active[m].1| && (forall k :: 0 <= k < idx[m] ==> active[m].1[k].0 <= d)
         && last[m] == if idx[m] == 0 then None else Some(active[m].1[idx[m] - 1].1)
  }

  method AdvanceAll(active: Dict<string, Points>, d: int, idx0: seq<nat>, last0: seq<Option<real>>)
    returns (idx: seq<nat>, last: seq<Option<real>>)
    requires (forall m :: 0 <= m < |active| ==> Ascending(active[m].1)) && Pointed(active, idx0, last0, d)
    ensures Pointed(active, idx, last, d) && |last| == |active|
    ensures forall m :: 0 <= m < |active| ==> last[m] == Latest(active[m].1, d)
  {
    hide Latest, Ascending;
    idx, last := idx0, last0;
    for m := 0 to |active|
      invariant Pointed(active, idx, last, d) && forall j :: 0 <= j < m ==> last[j] == Latest(active[j].1, d)
    {
      var i, v := Advance(active[m].1, d, idx[m], last[m]);
      idx, last := idx[m := i], last[m := v];
    }
  }

  method AddUp(active: Dict<string, Points>, fx: Points, d: int, last: seq<Option<real>>) returns (total: Option<real>)
    requires Ascending(fx) && |last| == |active| && forall m :: 0 <= m < |active| ==> last[m] == Latest(active[m].1, d)
    ensures total == TotalOf(active, |active|, fx, d)
  {
    var sum := 0.0;
    for m := 0 to |active|
      invariant TotalOf(active, m, fx, d) == Some(sum)
    {
      if last[m].None? {
        MissingStays(active, m + 1, |active|, fx, d);
        return None;
      }
      var v := last[m].value;
      if active[m].0 == "US" {
        var rate := FxAt(fx, d);
        if rate.None? {
          MissingStays(active, m + 1, |active|, fx, d);
          return None;
        }
        v := v * rate.value;
      }
      sum := sum + v;
    }
    return Some(sum);
  }

  lemma {:induction false} MissingStays(active: Dict<string, Points>, j: nat, k: nat, fx: Points, d: int)
    requires j <= k <= |active| && TotalOf(active, j, fx, d).None?
    ensures TotalOf(active, k, fx, d).None?
    decreases k
  {
    if j < k {
      MissingStays(active, j, k - 1, fx, d);
    }
  }

  /** The days and rows of the merge, when it has any. */
  ghost predicate IsMerge(active: Dict<string, Points>, fx: Points, out: Points)
    requires active != [] && forall i :: 0 <= i < |active| ==> active[i].1 != []
  {
    var dates := Days(active, |active|, Start(active));
    out == Rows(active, fx, dates, |dates|)
  }

  method MergeTotalKrw(series: Dict<string, Points>, fx: Points) returns (out: Points)
    requires (forall i :: 0 <= i < |series| ==> Ascending(series[i].1)) && Ascending(fx)
    ensures var active := Active(series);
      && (forall i :: 0 <= i < |active| ==> active[i].1 != [])
      && if active == [] || (HasUs(active) && fx == []) then out == [] else IsMerge(active, fx, out)
  {
    hide TotalOf, Pointed, Latest;
    var active := Active(series);
    ActiveHasPoints(series);
    if active == [] || (HasUs(active) && fx == []) {
      return [];
    }
    var start := Start(active);
    var dates := Days(active, |active|, start);
    DaysAreObserved(active, |active|, start);
    var idx: seq<nat>, last: seq<Option<real>> := seq(|active|, _ => 0), seq(|active|, _ => None);
    out := [];
    Unmoved(active, idx, last, start);
    forall j | 0 <= j < |dates|
      ensures start <= dates[j]
    {
      assert dates[j] in dates;
    }
    ghost var now := start;
    for n := 0 to |dates|
      invariant Pointed(active, idx, last, now) && (forall j :: n <= j < |dates| ==> now <= dates[j])
      invariant out == Rows(active, fx, dates, n)
    {
      LaterDay(active, idx, last, now, dates[n]);
      now := dates[n];
      idx, last := AdvanceAll(active, dates[n], idx, last);
      var total := AddUp(active, fx, dates[n], last);
      if total.Some? {
        out := out + [(dates[n], total.value)];
      }
    }
  }

  lemma Unmoved(active: Dict<string, Points>, idx: seq<nat>, last: seq<Option<real>>, d: int)
    requires |idx| == |last| == |active| && forall m :: 0 <= m < |active| ==> idx[m] == 0 && last[m] == None
    ensures Pointed(active, idx, last, d)
  {
  }

  lemma LaterDay(active: Dict<string, Points>, idx: seq<nat>, last: seq<Option<real>>, d: int, later: int)
    requires Pointed(active, idx, last, d) && d <= later
    ensures Pointed(active, idx, last, later)
  {
  }

  lemma {:induction false} RowsAre(active: Dict<string, Points>, fx: Points, dates: seq<int>, n: nat)
    requires n <= |dates| && Rising(dates)
    ensures forall d :: (exists i :: 0 <= i < |Rows(active, fx, dates, n)| && Rows(active, fx, dates, n)[i].0 == d)
                 <==> d in dates[..n] && TotalOf(active, |active|, fx, d).Some?
    ensures forall i :: 0 <= i < |Rows(active, fx, dates, n)| ==>
      var (d, v) := Rows(active, fx, dates, n)[i]; TotalOf(active, |active|, fx, d) == Some(v)
    ensures forall i, j :: 0 <= i < j < |Rows(active, fx, dates, n)| ==>
      Rows(active, fx, dates, n)[i].0 < Rows(active, fx, dates, n)[j].0
    ensures forall i :: 0 <= i < |Rows(active, fx, dates, n)| ==> Rows(active, fx, dates, n)[i].0 in dates[..n]
  {
    hide TotalOf;
    if n > 0 {
      RowsAre(active, fx, dates, n - 1);
      assert dates[..n] == dates[..n - 1] + [dates[n - 1]];
      var front, rows := Rows(active, fx, dates, n - 1), Rows(active, fx, dates, n);
      assert forall i :: 0 <= i < |front| ==> rows[i] == front[i];
      assert |rows| > |front| ==> rows[|front|].0 == dates[n - 1];
    }
  }

  /** What the merge returns: a row for exactly the observed days from the common start that have a rate when one is
      needed, each holding the sum of the forward-filled values in won, in strictly rising order of days. */
  lemma MergeMeaning(active: Dict<string, Points>, fx: Points, out: Points)
    requires active != [] && forall i :: 0 <= i < |active| ==> active[i].1 != [] && Ascending(active[i].1)
    requires IsMerge(active, fx, out)
    ensures forall d :: (exists i :: 0 <= i < |out| && out[i].0 == d)
                 <==> Observed(active, |active|, Start(active), d) && !(HasUs(active) && Latest(fx, d).None?)
    ensures forall i :: 0 <= i < |out| ==> TotalOf(active, |active|, fx, out[i].0) == Some(out[i].1)
    ensures forall i, j :: 0 <= i < j < |out| ==> out[i].0 < out[j].0
  {
    hide TotalOf, Latest, Observed;
    var start := Start(active);
    var dates := Days(active, |active|, start);
    DaysAreObserved(active, |active|, start);
    RowsAre(active, fx, dates, |dates|);
    assert dates[..|dates|] == dates;
    StartIsLatestFirst(active);
    forall d | d >= start {
      MissingMeansNoRate(active, |active|, fx, d);
    }
    forall d | Observed(active, |active|, start, d)
      ensures d >= start
    {
      ObservedFromStart(active, start, d);
    }
  }

  lemma ObservedFromStart(active: Dict<string, Points>, start: int, d: int)
    requires Observed(active, |active|, start, d)
    ensures d >= start
  {
  }

  // ----- Rebasing to a common zero -----

  function After(points: Points, start: int, n: nat): Points
    requires n <= |points|
  {
    if n == 0 then []
    else if points[n - 1].0 <= start then After(points, start, n - 1)
    else After(points, start, n - 1) + [points[n - 1]]
  }

  function Pct(points: Points, base: real): Points
    requires base > 0.0
  {
    seq(|points|, i requires 0 <= i < |points| => (points[i].0, (points[i].1 / base - 1.0) * 100.0))
  }

  /** The points after the start are the rest of the series from its first later day on. */
  lemma {:induction false} AfterIsTheRest(points: Points, start: int, k: nat, n: nat)
    requires k <= n <= |points|
    requires (forall i :: 0 <= i < k ==> points[i].0 <= start) && forall i :: k <= i < |points| ==> points[i].0 > start
    ensures After(points, start, n) == points[k..n]
    decreases n
  {
    if n > k {
      AfterIsTheRest(points, start, k, n - 1);
    } else {
      NoneAfter(points, start, n);
    }
  }

  lemma {:induction false} NoneAfter(points: Points, start: int, n: nat)
    requires n <= |points| && forall i :: 0 <= i < n ==> points[i].0 <= start
    ensures After(points, start, n) == []
  {
    if n > 0 {
      NoneAfter(points, start, n - 1);
    }
  }

  /** A percentage is the change that turns the base into the value. */
  lemma PctIsTheChange(points: Points, base: real, i: nat)
    requires base > 0.0 && i < |points|
    ensures |Pct(points, base)| == |points| && Pct(points, base)[i].0 == points[i].0
    ensures base * (1.0 + Pct(points, base)[i].1 / 100.0) == points[i].1
  {
    assert Pct(points, base)[i].1 / 100.0 == points[i].1 / base - 1.0;
    assert (points[i].1 / base) * base == points[i].1;
  }

  /** The base is the forward-filled value at the start; without a positive one there is no series. */
  method RebasePct(points: Points, start: int) returns (out: Points)
    requires Ascending(points)
    ensures match Latest(points, start)
      case None => out == []
      case Some(base) =>
        if base <= 0.0 then out == [] else out == [(start, 0.0)] + Pct(After(points, start, |points|), base)
  {
    var base: Option<real>, after: Points := None, [];
    for n := 0 to |points|
      invariant base == Latest(points[..n], start) && after == After(points, start, n)
    {
      assert points[..n + 1][..n] == points[..n];
      if points[n].0 <= start {
        base := Some(points[n].1);
      } else {
        after := after + [points[n]];
      }
    }
    assert points[..|points|] == points;
    if base.None? || base.value <= 0.0 {
      return [];
    }
    out := [(start, 0.0)] + Pct(after, base.value);
  }
}
