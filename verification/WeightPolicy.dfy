/** Guarded load weights: scores to a target, smoothing, then clamp and renormalise until inside [floor, cap]. */
module WeightPolicy {
  import opened Dict

  const ROUNDS: nat := 50
  const TOLERANCE := 0.000000001

  function Max(a: real, b: real): real { if a < b then b else a }
  function Min(a: real, b: real): real { if b < a then b else a }

  function Clamp(v: real, floor: real, cap: real): real { Min(cap, Max(floor, v)) }

  function Clamped(w: seq<real>, floor: real, cap: real): (r: seq<real>)
    ensures |r| == |w| && forall i :: 0 <= i < |r| ==> r[i] == Clamp(w[i], floor, cap)
  {
    seq(|w|, i requires 0 <= i < |w| => Clamp(w[i], floor, cap))
  }

  function Total(w: seq<real>): real {
    if w == [] then 0.0 else w[0] + Total(w[1..])
  }

  function Scaled(w: seq<real>, z: real): (r: seq<real>)
    requires z > 0.0
    ensures |r| == |w| && forall i :: 0 <= i < |r| ==> r[i] == w[i] / z
  {
    seq(|w|, i requires 0 <= i < |w| => w[i] / z)
  }

  function Equal(n: nat): (r: seq<real>)
    ensures |r| == n && forall i :: 0 <= i < n ==> r[i] == 1.0 / n as real
  {
    seq(n, i requires 0 <= i < n => 1.0 / n as real)
  }

  predicate Settled(w: seq<real>, floor: real, cap: real) {
    forall i :: 0 <= i < |w| ==> floor - TOLERANCE <= w[i] <= cap + TOLERANCE
  }

  /** One clamp and renormalise round. */
  function Round(w: seq<real>, floor: real, cap: real): (r: seq<real>)
    requires Total(Clamped(w, floor, cap)) > 0.0
    ensures |r| == |w|
  {
    Scaled(Clamped(w, floor, cap), Total(Clamped(w, floor, cap)))
  }

  function Iterate(w: seq<real>, floor: real, cap: real, rounds: nat): (r: seq<real>)
    ensures |r| == |w|
    decreases rounds
  {
    if rounds == 0 then w
    else if Total(Clamped(w, floor, cap)) <= 0.0 then Equal(|w|)
    else if Settled(Round(w, floor, cap), floor, cap) then Round(w, floor, cap)
    else Iterate(Round(w, floor, cap), floor, cap, rounds - 1)
  }

  method Sum(w: seq<real>) returns (total: real)
    ensures total == Total(w)
  {
    total := 0.0;
    var i := |w|;
    while i > 0
      invariant 0 <= i <= |w| && total == Total(w[i..])
    {
      i := i - 1;
      assert w[i..][1..] == w[i + 1..];
      total := w[i] + total;
    }
    assert w[0..] == w;
  }

  method ClampNormalize(w: seq<real>, floor: real, cap: real, iters: nat := ROUNDS) returns (out: seq<real>)
    ensures out == Iterate(w, floor, cap, iters)
  {
    out := w;
    var i := 0;
    while i < iters
      invariant i <= iters && |out| == |w|
      invariant Iterate(w, floor, cap, iters) == Iterate(out, floor, cap, iters - i)
    {
      var clamped := Clamped(out, floor, cap);
      var z := Sum(clamped);
      if z <= 0.0 {
        return Equal(|out|);
      }
      out := Scaled(clamped, z);
      if Settled(out, floor, cap) {
        return;
      }
      i := i + 1;
    }
  }

  // ----- Excess below the floor and above the cap -----

  function Under(w: seq<real>, floor: real): (r: real)
    ensures r >= 0.0
  {
    if w == [] then 0.0 else Max(0.0, floor - w[0]) + Under(w[1..], floor)
  }

  function Over(w: seq<real>, cap: real): (r: real)
    ensures r >= 0.0
  {
    if w == [] then 0.0 else Max(0.0, w[0] - cap) + Over(w[1..], cap)
  }

  /** n copies of x. */
  function Times(n: nat, x: real): real { n as real * x }

  lemma TimesMonotone(m: nat, n: nat, x: real, y: real)
    requires m <= n && 0.0 <= x <= y
    ensures Times(m, x) <= Times(n, x) <= Times(n, y)
  {
    Scale((n - m) as real, 0.0, x);
    Scale(n as real, x, y);
    assert (n - m) as real * x == n as real * x - m as real * x;
  }

  function Lows(w: seq<real>, floor: real): (r: nat)
    ensures r <= |w|
  {
    if w == [] then 0 else (if w[0] < floor then 1 else 0) + Lows(w[1..], floor)
  }

  function Highs(w: seq<real>, cap: real): (r: nat)
    ensures r <= |w|
  {
    if w == [] then 0 else (if w[0] > cap then 1 else 0) + Highs(w[1..], cap)
  }

  /** Clamping adds what was missing below the floor and takes what was above the cap. */
  lemma {:induction false} ClampBalance(w: seq<real>, floor: real, cap: real)
    requires floor <= cap
    ensures Total(Clamped(w, floor, cap)) == Total(w) + Under(w, floor) - Over(w, cap)
  {
    if w != [] {
      ClampBalance(w[1..], floor, cap);
      assert Clamped(w, floor, cap)[1..] == Clamped(w[1..], floor, cap);
    }
  }

  lemma {:induction false} ScaledTotal(w: seq<real>, z: real)
    requires z > 0.0
    ensures Total(Scaled(w, z)) == Total(w) / z
  {
    if w != [] {
      ScaledTotal(w[1..], z);
      assert Scaled(w, z)[1..] == Scaled(w[1..], z);
    }
  }

  lemma SelfQuotient(z: real)
    requires z > 0.0
    ensures z / z == 1.0
  {
    var q := z / z;
    assert q * z == z;
    assert (q - 1.0) * z == 0.0;
  }

  /** Every round restores the sum to one. */
  lemma RoundSumsToOne(w: seq<real>, floor: real, cap: real)
    requires Total(Clamped(w, floor, cap)) > 0.0
    ensures Total(Round(w, floor, cap)) == 1.0
  {
    ScaledTotal(Clamped(w, floor, cap), Total(Clamped(w, floor, cap)));
    SelfQuotient(Total(Clamped(w, floor, cap)));
  }

  lemma {:induction false} NothingUnder(w: seq<real>, floor: real)
    requires forall i :: 0 <= i < |w| ==> w[i] >= floor
    ensures Under(w, floor) == 0.0
  {
    if w != [] {
      NothingUnder(w[1..], floor);
    }
  }

  lemma {:induction false} NothingOver(w: seq<real>, cap: real)
    requires forall i :: 0 <= i < |w| ==> w[i] <= cap
    ensures Over(w, cap) == 0.0
  {
    if w != [] {
      NothingOver(w[1..], cap);
    }
  }

  /** A single element accounts for no more than the whole excess. */
  lemma {:induction false} ElementWithinExcess(w: seq<real>, floor: real, cap: real, i: nat)
    requires i < |w|
    ensures floor - Under(w, floor) <= w[i] <= cap + Over(w, cap)
  {
    if i > 0 {
      ElementWithinExcess(w[1..], floor, cap, i - 1);
    }
  }

  lemma Quotient(v: real, bound: real, z: real)
    requires z > 0.0
    ensures v <= bound ==> v / z <= bound / z
    ensures v >= bound ==> v / z >= bound / z
  {
    if v <= bound {
      assert (bound - v) / z >= 0.0;
    } else {
      assert (v - bound) / z >= 0.0;
    }
  }

  lemma ShrinkGrow(v: real, z: real)
    requires v >= 0.0 && z > 0.0
    ensures z >= 1.0 ==> v / z <= v
    ensures z <= 1.0 ==> v / z >= v
  {
    var q := v / z;
    assert q * z == v && q >= 0.0;
    if z >= 1.0 {
      assert q * (z - 1.0) >= 0.0;
    } else {
      assert q * (1.0 - z) >= 0.0;
    }
  }

  /** A round can break only one bound: dividing by z > 1 shrinks, dividing by z < 1 grows. */
  lemma RoundIsOneSided(w: seq<real>, floor: real, cap: real)
    requires 0.0 <= floor <= cap && Total(Clamped(w, floor, cap)) > 0.0
    ensures var z := Total(Clamped(w, floor, cap));
      && (z >= 1.0 ==> Over(Round(w, floor, cap), cap) == 0.0)
      && (z <= 1.0 ==> Under(Round(w, floor, cap), floor) == 0.0)
      && (forall i :: 0 <= i < |w| ==> floor / z <= Round(w, floor, cap)[i] <= cap / z)
  {
    var c := Clamped(w, floor, cap);
    var z := Total(c);
    var out := Round(w, floor, cap);
    forall i | 0 <= i < |w|
      ensures floor / z <= out[i] <= cap / z
      ensures z >= 1.0 ==> out[i] <= cap
      ensures z <= 1.0 ==> out[i] >= floor
    {
      Quotient(c[i], floor, z);
      Quotient(c[i], cap, z);
      ShrinkGrow(c[i], z);
    }
    if z >= 1.0 {
      NothingOver(out, cap);
    }
    if z <= 1.0 {
      NothingUnder(out, floor);
    }
  }

  /** The violated side never changes: the next divisor stays on the same side of one. */
  lemma SideIsKept(w: seq<real>, floor: real, cap: real)
    requires 0.0 <= floor <= cap && Total(Clamped(w, floor, cap)) > 0.0
    ensures var z := Total(Clamped(w, floor, cap));
      var next := Total(Clamped(Round(w, floor, cap), floor, cap));
      (z >= 1.0 ==> next >= 1.0) && (z <= 1.0 ==> next <= 1.0)
  {
    RoundSumsToOne(w, floor, cap);
    RoundIsOneSided(w, floor, cap);
    ClampBalance(Round(w, floor, cap), floor, cap);
  }

  lemma {:induction false} UnderBound(w: seq<real>, floor: real, gap: real)
    requires gap >= 0.0 && forall i :: 0 <= i < |w| ==> floor - w[i] <= gap
    ensures Under(w, floor) <= Times(Lows(w, floor), gap)
  {
    if w != [] {
      UnderBound(w[1..], floor, gap);
    }
  }

  lemma {:induction false} OverBound(w: seq<real>, cap: real, gap: real)
    requires gap >= 0.0 && forall i :: 0 <= i < |w| ==> w[i] - cap <= gap
    ensures Over(w, cap) <= Times(Highs(w, cap), gap)
  {
    if w != [] {
      OverBound(w[1..], cap, gap);
    }
  }

  lemma {:induction false} AllLowTotal(w: seq<real>, floor: real)
    requires w != [] && Lows(w, floor) == |w|
    ensures Total(w) < Times(|w|, floor)
  {
    if |w| > 1 {
      AllLowTotal(w[1..], floor);
    }
  }

  lemma {:induction false} HighsTotal(w: seq<real>, cap: real)
    requires cap >= 0.0 && forall i :: 0 <= i < |w| ==> w[i] >= 0.0
    ensures Total(w) >= Times(Highs(w, cap), cap)
    ensures Highs(w, cap) > 0 ==> Total(w) > Times(Highs(w, cap), cap)
  {
    if w != [] {
      HighsTotal(w[1..], cap);
    }
  }

  lemma Scale(k: real, x: real, y: real)
    requires k >= 0.0 && x <= y
    ensures k * x <= k * y
  {
    assert k * (y - x) >= 0.0;
  }

  lemma FloorShare(floor: real, u: real)
    requires floor >= 0.0 && u >= 0.0
    ensures 0.0 <= floor - floor / (1.0 + u) <= floor * u
  {
    var z := 1.0 + u;
    ShrinkGrow(floor, z);
    var q := floor / z;
    assert q * z == floor;
    assert floor - q == q * u;
    Scale(u, q, floor);
  }

  /** At most n - 1 elements are below the floor, each by at most gap. */
  lemma UnderShare(out: seq<real>, floor: real, gap: real)
    requires out != [] && gap >= 0.0 && Times(|out|, floor) <= 1.0 && Total(out) == 1.0
    requires forall i :: 0 <= i < |out| ==> floor - out[i] <= gap
    ensures Under(out, floor) <= Times(|out| - 1, gap)
  {
    hide Times;
    UnderBound(out, floor, gap);
    if Lows(out, floor) == |out| {
      AllLowTotal(out, floor);
    }
    TimesMonotone(Lows(out, floor), |out| - 1, gap, gap);
  }

  lemma UnderAfterRound(w: seq<real>, floor: real, cap: real, z: real, gap: real)
    requires w != [] && 0.0 <= floor <= cap && Times(|w|, floor) <= 1.0
    requires z == Total(Clamped(w, floor, cap)) >= 1.0 && gap >= 0.0 && floor - floor / z <= gap
    ensures Over(Round(w, floor, cap), cap) == 0.0
    ensures Under(Round(w, floor, cap), floor) <= Times(|w| - 1, gap)
  {
    hide Round, Clamped, Times;
    RoundSumsToOne(w, floor, cap);
    RoundIsOneSided(w, floor, cap);
    UnderShare(Round(w, floor, cap), floor, gap);
  }

  /** Floor side, excess u: a round leaves at most (n - 1) * floor of it. */
  lemma FloorContraction(w: seq<real>, floor: real, cap: real, u: real)
    requires |w| > 0 && 0.0 <= floor <= cap && Times(|w|, floor) <= 1.0
    requires Total(w) == 1.0 && Over(w, cap) == 0.0 && u == Under(w, floor)
    ensures Total(Clamped(w, floor, cap)) == 1.0 + u
    ensures Over(Round(w, floor, cap), cap) == 0.0
    ensures Under(Round(w, floor, cap), floor) <= Times(|w| - 1, floor * u)
  {
    hide Round, Clamped, Times;
    ClampBalance(w, floor, cap);
    FloorShare(floor, u);
    UnderAfterRound(w, floor, cap, 1.0 + u, floor * u);
  }

  lemma CapShare(cap: real, u: real)
    requires cap >= 0.0 && 0.0 <= u < 1.0
    ensures 0.0 <= cap / (1.0 - u) - cap == cap * u / (1.0 - u)
  {
    var z := 1.0 - u;
    var q := cap / z;
    assert q * z == cap;
    ShrinkGrow(cap, z);
    var r := cap * u / z;
    assert r * z == cap * u;
    assert (q - cap - r) * z == 0.0;
  }

  lemma RoundNonNegative(w: seq<real>, floor: real, cap: real)
    requires 0.0 <= floor <= cap && Total(Clamped(w, floor, cap)) > 0.0
    ensures forall i :: 0 <= i < |w| ==> Round(w, floor, cap)[i] >= 0.0
  {
    forall i | 0 <= i < |w|
      ensures Round(w, floor, cap)[i] >= 0.0
    {
      Quotient(Clamped(w, floor, cap)[i], 0.0, Total(Clamped(w, floor, cap)));
    }
  }

  lemma HighsShare(out: seq<real>, cap: real)
    requires cap >= 0.0 && Total(out) == 1.0 && forall i :: 0 <= i < |out| ==> out[i] >= 0.0
    ensures Highs(out, cap) > 0 ==> Times(Highs(out, cap), cap) < 1.0
  {
    HighsTotal(out, cap);
  }

  lemma OverAfterRound(w: seq<real>, floor: real, cap: real, z: real, gap: real)
    requires w != [] && 0.0 <= floor <= cap && 0.0 < z <= 1.0 && z == Total(Clamped(w, floor, cap))
    requires gap >= 0.0 && cap / z - cap <= gap
    ensures Under(Round(w, floor, cap), floor) == 0.0
    ensures Over(Round(w, floor, cap), cap) <= Times(Highs(Round(w, floor, cap), cap), gap)
  {
    hide Round, Clamped, Times;
    RoundIsOneSided(w, floor, cap);
    OverBound(Round(w, floor, cap), cap, gap);
  }

  /** Cap side, excess u: with m elements still above the cap (so m * cap < 1), a round leaves at most
      m * cap / z of it, where z = 1 - u is the divisor. */
  lemma CapContraction(w: seq<real>, floor: real, cap: real, u: real)
    requires |w| > 0 && 0.0 <= floor <= cap && Total(w) == 1.0 && Under(w, floor) == 0.0
    requires u == Over(w, cap) < 1.0
    ensures Total(Clamped(w, floor, cap)) == 1.0 - u
    ensures Under(Round(w, floor, cap), floor) == 0.0
    ensures var m := Highs(Round(w, floor, cap), cap);
      (m > 0 ==> Times(m, cap) < 1.0) && Over(Round(w, floor, cap), cap) <= Times(m, cap * u / (1.0 - u))
  {
    hide Round, Clamped, Times;
    ClampBalance(w, floor, cap);
    RoundSumsToOne(w, floor, cap);
    RoundNonNegative(w, floor, cap);
    HighsShare(Round(w, floor, cap), cap);
    CapShare(cap, u);
    OverAfterRound(w, floor, cap, 1.0 - u, cap * u / (1.0 - u));
  }

  lemma StrictQuotient(v: real, z: real)
    requires v > 0.0 && z > 0.0
    ensures z < 1.0 ==> v / z > v
    ensures z > 1.0 ==> v / z < v
  {
    ShrinkGrow(v, z);
    var q := v / z;
    assert q * z == v;
    if q == v {
      assert v * (z - 1.0) == 0.0;
    }
  }

  /** Renormalising never lands exactly on the bound: whatever is outside stays strictly outside. */
  lemma NeverExact(w: seq<real>, floor: real, cap: real)
    requires 0.0 < floor <= cap && Total(w) == 1.0 && Total(Clamped(w, floor, cap)) > 0.0
    ensures Under(w, floor) == 0.0 && Over(w, cap) > 0.0 ==> Over(Round(w, floor, cap), cap) > 0.0
    ensures Over(w, cap) == 0.0 && Under(w, floor) > 0.0 ==> Under(Round(w, floor, cap), floor) > 0.0
  {
    ClampBalance(w, floor, cap);
    var z := Total(Clamped(w, floor, cap));
    var out := Round(w, floor, cap);
    StrictQuotient(cap, z);
    StrictQuotient(floor, z);
    if Under(w, floor) == 0.0 && Over(w, cap) > 0.0 {
      var i := SomeOver(w, cap);
      ElementWithinExcess(out, floor, cap, i);
    } else if Over(w, cap) == 0.0 && Under(w, floor) > 0.0 {
      var i := SomeUnder(w, floor);
      ElementWithinExcess(out, floor, cap, i);
    }
  }

  lemma {:induction false} SomeOver(w: seq<real>, cap: real) returns (i: nat)
    requires Over(w, cap) > 0.0
    ensures i < |w| && w[i] > cap
  {
    if w[0] > cap {
      i := 0;
    } else {
      var j := SomeOver(w[1..], cap);
      i := j + 1;
    }
  }

  lemma {:induction false} SomeUnder(w: seq<real>, floor: real) returns (i: nat)
    requires Under(w, floor) > 0.0
    ensures i < |w| && w[i] < floor
  {
    if w[0] < floor {
      i := 0;
    } else {
      var j := SomeUnder(w[1..], floor);
      i := j + 1;
    }
  }

  lemma RoundOrder(w: seq<real>, floor: real, cap: real, i: nat, j: nat)
    requires i < |w| && j < |w| && 0.0 < floor <= cap
    ensures Total(Clamped(w, floor, cap)) > 0.0
    ensures var out := Round(w, floor, cap);
      out[i] > 0.0 && Total(out) == 1.0 && (w[i] <= w[j] ==> out[i] <= out[j])
  {
    var c := Clamped(w, floor, cap);
    PositiveTotal(c, floor);
    RoundSumsToOne(w, floor, cap);
    Quotient(c[i], c[j], Total(c));
    PositiveQuotient(c[i], Total(c));
  }

  lemma PositiveQuotient(v: real, z: real)
    requires v > 0.0 && z > 0.0
    ensures v / z > 0.0
  {
    assert (v / z) * z == v;
  }

  /** No round reorders the loads; with a positive floor the sum is one and every weight positive. */
  lemma {:induction false} OrderAndPositivity(w: seq<real>, floor: real, cap: real, rounds: nat, i: nat, j: nat)
    requires i < |w| && j < |w| && 0.0 < floor <= cap
    ensures var out := Iterate(w, floor, cap, rounds);
      && (w[i] <= w[j] ==> out[i] <= out[j])
      && (rounds > 0 ==> out[i] > 0.0 && Total(out) == 1.0)
    decreases rounds
  {
    if rounds > 0 {
      RoundOrder(w, floor, cap, i, j);
      if !Settled(Round(w, floor, cap), floor, cap) {
        OrderAndPositivity(Round(w, floor, cap), floor, cap, rounds - 1, i, j);
      }
    }
  }

  /** Exactly inside [floor, cap]. */
  predicate Within(w: seq<real>, floor: real, cap: real) {
    Under(w, floor) == 0.0 && Over(w, cap) == 0.0
  }

  lemma WithinSettles(w: seq<real>, floor: real, cap: real)
    requires Within(w, floor, cap)
    ensures Settled(w, floor, cap)
  {
    forall i | 0 <= i < |w|
      ensures floor - TOLERANCE <= w[i] <= cap + TOLERANCE
    {
      ElementWithinExcess(w, floor, cap, i);
    }
  }

  /** One side broken stays broken, however many rounds follow. */
  lemma {:induction false} OutsideStaysOutside(w: seq<real>, floor: real, cap: real, rounds: nat)
    requires w != [] && 0.0 < floor <= cap && Total(w) == 1.0
    requires (Under(w, floor) == 0.0) != (Over(w, cap) == 0.0)
    ensures !Within(Iterate(w, floor, cap, rounds), floor, cap)
    decreases rounds
  {
    hide Round, Clamped, Settled;
    if rounds > 0 {
      RoundOrder(w, floor, cap, 0, 0);
      NeverExact(w, floor, cap);
      RoundIsOneSided(w, floor, cap);
      if !Settled(Round(w, floor, cap), floor, cap) {
        OutsideStaysOutside(Round(w, floor, cap), floor, cap, rounds - 1);
      }
    }
  }

  /** The promised bounds hold exactly if and only if the first round already meets them; later rounds only approach. */
  lemma WithinIffFirstRound(w: seq<real>, floor: real, cap: real, rounds: nat)
    requires w != [] && 0.0 < floor <= cap && rounds > 0
    ensures Total(Clamped(w, floor, cap)) > 0.0
    ensures Within(Iterate(w, floor, cap, rounds), floor, cap) <==> Within(Round(w, floor, cap), floor, cap)
  {
    hide Round, Clamped, Settled;
    RoundOrder(w, floor, cap, 0, 0);
    var first := Round(w, floor, cap);
    if Within(first, floor, cap) {
      WithinSettles(first, floor, cap);
    } else {
      RoundIsOneSided(w, floor, cap);
      OutsideStaysOutside(first, floor, cap, rounds - 1);
    }
  }

  lemma {:induction false} PositiveTotal(c: seq<real>, floor: real)
    requires c != [] && floor > 0.0 && forall i :: 0 <= i < |c| ==> c[i] >= floor
    ensures Total(c) > 0.0
  {
    if |c| > 1 {
      PositiveTotal(c[1..], floor);
    }
  }

  // ----- Any number of loads -----

  /** Total violation of the bounds. */
  function Excess(w: seq<real>, floor: real, cap: real): real { Under(w, floor) + Over(w, cap) }

  function Power(base: real, n: nat): real { if n == 0 then 1.0 else base * Power(base, n - 1) }

  /** A point of the iteration: sums to one, violates one side only. */
  ghost predicate OneSided(w: seq<real>, floor: real, cap: real) {
    Total(w) == 1.0 && (Under(w, floor) == 0.0 || Over(w, cap) == 0.0)
  }

  /** The documented condition for a fixed point: floor <= 1/n <= cap. */
  predicate Feasible(n: nat, floor: real, cap: real) {
    n > 0 && 0.0 < floor <= cap && Times(n, floor) <= 1.0 <= Times(n, cap)
  }

  lemma ExcessSettles(w: seq<real>, floor: real, cap: real)
    requires Excess(w, floor, cap) <= TOLERANCE
    ensures Settled(w, floor, cap)
  {
    forall i | 0 <= i < |w|
      ensures floor - TOLERANCE <= w[i] <= cap + TOLERANCE
    {
      ElementWithinExcess(w, floor, cap, i);
    }
  }

  /** What lies above the cap leaves room for the capped loads and for the floor of the others. */
  lemma {:induction false} OverLeaves(w: seq<real>, floor: real, cap: real)
    requires forall i :: 0 <= i < |w| ==> w[i] >= floor
    ensures Over(w, cap) + Times(Highs(w, cap), cap) + Times(|w| - Highs(w, cap), floor) <= Total(w)
  {
    if w != [] {
      OverLeaves(w[1..], floor, cap);
    }
  }

  lemma {:induction false} UnderAtMost(w: seq<real>, floor: real)
    requires floor >= 0.0 && forall i :: 0 <= i < |w| ==> w[i] >= 0.0
    ensures Under(w, floor) <= Times(|w|, floor)
  {
    if w != [] {
      UnderAtMost(w[1..], floor);
    }
  }

  lemma {:induction false} OverAtMost(w: seq<real>, cap: real)
    requires cap >= 0.0 && forall i :: 0 <= i < |w| ==> w[i] >= 0.0
    ensures Over(w, cap) <= Total(w)
  {
    if w != [] {
      OverAtMost(w[1..], cap);
    }
  }

  lemma {:induction false} NoneUnder(w: seq<real>, floor: real)
    requires Under(w, floor) == 0.0
    ensures forall i :: 0 <= i < |w| ==> w[i] >= floor
  {
    forall i | 0 <= i < |w|
      ensures w[i] >= floor
    {
      ElementWithinExcess(w, floor, 0.0, i);
    }
  }

  /** The first round, from any numbers at all, violates one side by no more than the whole. */
  lemma AnyFirstRound(w: seq<real>, floor: real, cap: real)
    requires Feasible(|w|, floor, cap)
    ensures Total(Clamped(w, floor, cap)) > 0.0
    ensures var out := Round(w, floor, cap); OneSided(out, floor, cap) && Excess(out, floor, cap) <= 1.0
  {
    hide Round, Clamped;
    RoundOrder(w, floor, cap, 0, 0);
    RoundIsOneSided(w, floor, cap);
    RoundNonNegative(w, floor, cap);
    UnderAtMost(Round(w, floor, cap), floor);
    OverAtMost(Round(w, floor, cap), cap);
  }

  lemma ShareWithin(share: real, u: real, y: real, rate: real, z: real, kept: real)
    requires z > 0.0 && u >= 0.0 && kept == z * rate && y <= kept && share * z == y * u
    ensures share <= rate * u
  {
    Scale(u, y, kept);
    assert (rate * u) * z == u * kept;
    Cancel(share, rate * u, z);
  }

  /** Cap side: the round leaves y * u / z by the contraction, and no more than 1 - y - floor by what it must hold. */
  lemma CapRateFor(u: real, y: real, floor: real, share: real, over: real)
    requires 0.0 <= u < 1.0 && floor > 0.0 && over <= share && share * (1.0 - u) == y * u && over <= 1.0 - y - floor
    ensures over <= (1.0 - floor / 4.0) * u
  {
    var rate, z := 1.0 - floor / 4.0, 1.0 - u;
    if y + floor / 2.0 <= z {
      Scale(floor / 4.0, z, 1.0);
      var kept := z * rate;
      assert kept == z - (floor / 4.0) * z;
      ShareWithin(share, u, y, rate, z, kept);
    } else {
      Scale(floor / 4.0, u, 1.0);
    }
  }

  lemma StrictScale(k: real, x: real)
    requires k > 0.0 && x > 0.0
    ensures k * x > 0.0
  {
  }

  lemma Cancel(x: real, y: real, z: real)
    requires z > 0.0 && x * z <= y * z
    ensures x <= y
  {
    if x > y {
      StrictScale(x - y, z);
    }
  }

  lemma TimesOf(m: nat, cap: real, u: real)
    requires u < 1.0
    ensures Times(m, cap * u / (1.0 - u)) * (1.0 - u) == Times(m, cap) * u
  {
    var share := cap * u / (1.0 - u);
    assert share * (1.0 - u) == cap * u;
    assert Times(m, share) * (1.0 - u) == m as real * (cap * u);
  }

  lemma CapSideShrinks(w: seq<real>, floor: real, cap: real, u: real)
    requires Feasible(|w|, floor, cap) && Total(w) == 1.0 && Under(w, floor) == 0.0 && u == Over(w, cap)
    ensures Total(Clamped(w, floor, cap)) > 0.0
    ensures var out := Round(w, floor, cap);
      Under(out, floor) == 0.0 && Over(out, cap) <= (1.0 - floor / 4.0) * u
  {
    hide Round, Clamped, Times, Total, Under, Over, Highs;
    PositiveTotal(Clamped(w, floor, cap), floor) by { FloorOfClamp(w, floor, cap); }
    ClampBalance(w, floor, cap);
    CapContraction(w, floor, cap, u);
    var out := Round(w, floor, cap);
    var m := Highs(out, cap);
    RoundSumsToOne(w, floor, cap);
    NoneUnder(out, floor);
    OverLeaves(out, floor, cap);
    SomeBelow(|w|, m, floor, cap);
    TimesOf(m, cap, u);
    CapRateFor(u, Times(m, cap), floor, Times(m, cap * u / (1.0 - u)), Over(out, cap));
  }

  lemma FloorOfClamp(w: seq<real>, floor: real, cap: real)
    requires floor <= cap
    ensures forall i :: 0 <= i < |w| ==> Clamped(w, floor, cap)[i] >= floor
  {
  }

  /** Not every load can be above the cap. */
  lemma SomeBelow(n: nat, m: nat, floor: real, cap: real)
    requires Feasible(n, floor, cap) && m <= n && (m > 0 ==> Times(m, cap) < 1.0)
    ensures Times(n - m, floor) >= floor
  {
    TimesMonotone(1, n - m, floor, floor);
  }

  lemma FloorRate(n: nat, floor: real, u: real)
    requires n > 0 && floor > 0.0 && Times(n, floor) <= 1.0 && u >= 0.0
    ensures Times(n - 1, floor * u) <= (1.0 - floor / 4.0) * u
  {
    assert Times(n - 1, floor * u) == (Times(n, floor) - floor) * u;
    Scale(u, Times(n, floor) - floor, 1.0 - floor / 4.0);
  }

  lemma FloorSideShrinks(w: seq<real>, floor: real, cap: real, u: real)
    requires Feasible(|w|, floor, cap) && Total(w) == 1.0 && Over(w, cap) == 0.0 && u == Under(w, floor)
    ensures Total(Clamped(w, floor, cap)) > 0.0
    ensures var out := Round(w, floor, cap);
      Over(out, cap) == 0.0 && Under(out, floor) <= (1.0 - floor / 4.0) * u
  {
    hide Round, Clamped, Times, Total, Under, Over;
    FloorContraction(w, floor, cap, u);
    var most := Times(|w| - 1, floor * u);
    assert Under(Round(w, floor, cap), floor) <= most;
    FloorRate(|w|, floor, u);
  }

  /** Every round leaves at most 1 - floor / 4 of the violation. */
  lemma AnyContraction(w: seq<real>, floor: real, cap: real)
    requires Feasible(|w|, floor, cap) && OneSided(w, floor, cap)
    ensures Total(Clamped(w, floor, cap)) > 0.0
    ensures var out := Round(w, floor, cap);
      OneSided(out, floor, cap) && Excess(out, floor, cap) <= (1.0 - floor / 4.0) * Excess(w, floor, cap)
  {
    hide Round, Clamped, Total, Under, Over, Times;
    PositiveTotal(Clamped(w, floor, cap), floor) by { FloorOfClamp(w, floor, cap); }
    FloorAtMostOne(|w|, floor, cap);
    if Over(w, cap) == 0.0 {
      FloorSideShrinks(w, floor, cap, Under(w, floor));
      Scale(1.0 - floor / 4.0, Under(w, floor), Excess(w, floor, cap));
    } else {
      CapSideShrinks(w, floor, cap, Over(w, cap));
      Scale(1.0 - floor / 4.0, Over(w, cap), Excess(w, floor, cap));
    }
    RoundSumsToOne(w, floor, cap);
  }

  lemma {:induction false} ConvergesFrom(w: seq<real>, floor: real, cap: real, done: nat, rounds: nat)
    requires Feasible(|w|, floor, cap) && OneSided(w, floor, cap)
    requires Excess(w, floor, cap) <= Power(1.0 - floor / 4.0, done)
    ensures var out := Iterate(w, floor, cap, rounds);
      (rounds > 0 && Settled(out, floor, cap)) || Excess(out, floor, cap) <= Power(1.0 - floor / 4.0, done + rounds)
    decreases rounds
  {
    hide Round, Clamped, Total, Excess, OneSided, Settled;
    if rounds > 0 {
      FloorAtMostOne(|w|, floor, cap);
      AnyContraction(w, floor, cap);
      Scale(1.0 - floor / 4.0, Excess(w, floor, cap), Power(1.0 - floor / 4.0, done));
      if !Settled(Round(w, floor, cap), floor, cap) {
        ConvergesFrom(Round(w, floor, cap), floor, cap, done + 1, rounds - 1);
      }
    }
  }

  lemma FloorAtMostOne(n: nat, floor: real, cap: real)
    requires Feasible(n, floor, cap)
    ensures floor <= 1.0
  {
    TimesMonotone(1, n, floor, floor);
  }

  /** For any number of loads with 0 < floor <= 1/n <= cap, from any numbers at all, the violation of the bounds falls
      geometrically until it is within the tolerance. */
  lemma ConvergesGeometrically(w: seq<real>, floor: real, cap: real, rounds: nat)
    requires Feasible(|w|, floor, cap) && rounds > 0
    ensures var out := Iterate(w, floor, cap, rounds);
      Settled(out, floor, cap) || Excess(out, floor, cap) <= Power(1.0 - floor / 4.0, rounds - 1)
  {
    hide Round, Clamped, Total, Settled, Excess, OneSided;
    AnyFirstRound(w, floor, cap);
    if !Settled(Round(w, floor, cap), floor, cap) {
      ConvergesFrom(Round(w, floor, cap), floor, cap, 0, rounds - 1);
    }
  }

  lemma BernoulliStep(p: real, x: real, k: real)
    requires p >= 0.0 && 0.0 <= x <= 1.0 && k >= 0.0 && p * (1.0 + k * x) <= 1.0
    ensures 0.0 <= (1.0 - x) * p && ((1.0 - x) * p) * (1.0 + (k + 1.0) * x) <= 1.0
  {
    var square := (k + 1.0) * (x * x);
    Scale(1.0 - x, 0.0, p);
    Scale(x, 0.0, x);
    Scale(k + 1.0, 0.0, x * x);
    assert (1.0 - x) * (1.0 + (k + 1.0) * x) == 1.0 + k * x - square;
    Scale(p, 1.0 + k * x - square, 1.0 + k * x);
    assert ((1.0 - x) * p) * (1.0 + (k + 1.0) * x) == p * ((1.0 - x) * (1.0 + (k + 1.0) * x));
  }

  lemma {:induction false} Bernoulli(x: real, n: nat)
    requires 0.0 <= x <= 1.0
    ensures 0.0 <= Power(1.0 - x, n) && Power(1.0 - x, n) * (1.0 + n as real * x) <= 1.0
  {
    if n > 0 {
      Bernoulli(x, n - 1);
      BernoulliStep(Power(1.0 - x, n - 1), x, (n - 1) as real);
    }
  }

  /** So enough rounds always end within the tolerance: four per unit of 1 / (floor * tolerance), and one. */
  lemma EnoughRoundsSettle(w: seq<real>, floor: real, cap: real, rounds: nat)
    requires Feasible(|w|, floor, cap) && rounds > 0
    requires (rounds - 1) as real * (floor / 4.0) * TOLERANCE >= 1.0
    ensures Settled(Iterate(w, floor, cap, rounds), floor, cap)
  {
    hide Settled, Excess, Iterate, Power;
    ConvergesGeometrically(w, floor, cap, rounds);
    FloorAtMostOne(|w|, floor, cap);
    Bernoulli(floor / 4.0, rounds - 1);
    SmallPower(Power(1.0 - floor / 4.0, rounds - 1), (rounds - 1) as real * (floor / 4.0));
    var out := Iterate(w, floor, cap, rounds);
    if !Settled(out, floor, cap) {
      ExcessSettles(out, floor, cap);
    }
  }

  lemma SmallPower(p: real, steps: real)
    requires p >= 0.0 && p * (1.0 + steps) <= 1.0 && steps * TOLERANCE >= 1.0
    ensures p <= TOLERANCE
  {
    Scale(p, 1.0 / TOLERANCE, steps);
    assert p * (1.0 + steps) == p + p * steps;
  }

  // ----- Three loads, floor and cap at half and one and a half times the equal weight -----

  const FLOOR3 := 0.5 * (1.0 / 3.0)
  const CAP3 := 1.5 * (1.0 / 3.0)

  lemma TotalOfThree(w: seq<real>)
    requires |w| == 3
    ensures Total(w) == w[0] + w[1] + w[2]
  {
    assert w[1..][1..] == w[2..] && w[2..][1..] == [];
  }

  /** Any three numbers at all: after one round the violation is at most a sixth. */
  lemma FirstRound(w: seq<real>)
    requires |w| == 3
    ensures Total(Clamped(w, FLOOR3, CAP3)) > 0.0
    ensures var out := Round(w, FLOOR3, CAP3); OneSided(out, FLOOR3, CAP3) && Excess(out, FLOOR3, CAP3) <= 1.0 / 6.0
  {
    var c := Clamped(w, FLOOR3, CAP3);
    TotalOfThree(c);
    RoundSumsToOne(w, FLOOR3, CAP3);
    RoundIsOneSided(w, FLOOR3, CAP3);
    FirstExcess(Round(w, FLOOR3, CAP3), Total(c));
  }

  lemma FirstExcess(out: seq<real>, z: real)
    requires |out| == 3 && 0.5 <= z <= 1.5 && Total(out) == 1.0
    requires z >= 1.0 ==> Over(out, CAP3) == 0.0
    requires z <= 1.0 ==> Under(out, FLOOR3) == 0.0
    requires forall i :: 0 <= i < |out| ==> FLOOR3 / z <= out[i] <= CAP3 / z
    ensures OneSided(out, FLOOR3, CAP3) && Excess(out, FLOOR3, CAP3) <= 1.0 / 6.0
  {
    if z >= 1.0 {
      FirstFloorGap(z);
      UnderShare(out, FLOOR3, 1.0 / 18.0);
    } else {
      TotalOfThree(out);
      forall i | 0 <= i < 3
        ensures out[i] >= FLOOR3
      {
        ElementWithinExcess(out, FLOOR3, CAP3, i);
      }
      OverBound(out, CAP3, 1.0 / 6.0);
      HighsTotal(out, CAP3);
    }
  }

  /** z is at most three caps, so no element ends more than a third below the floor. */
  lemma FirstFloorGap(z: real)
    requires 1.0 <= z <= 1.5
    ensures FLOOR3 - FLOOR3 / z <= 1.0 / 18.0
  {
    var q := FLOOR3 / z;
    assert q * z == FLOOR3;
    assert q * (1.5 - z) >= 0.0;
  }

  lemma CapRate(u: real)
    requires 0.0 <= u <= 1.0 / 6.0
    ensures CAP3 * u / (1.0 - u) <= 0.6 * u
  {
    var z := 1.0 - u;
    var share := CAP3 * u / z;
    assert share * z == CAP3 * u;
    if share > 0.6 * u {
      Scale(z, 0.6 * u, share);
      Scale(u, CAP3, 0.6 * z);
    }
  }

  /** From there every round leaves at most three fifths of the violation. */
  lemma Contraction(w: seq<real>)
    requires |w| == 3 && OneSided(w, FLOOR3, CAP3) && Excess(w, FLOOR3, CAP3) <= 1.0 / 6.0
    ensures Total(Clamped(w, FLOOR3, CAP3)) > 0.0
    ensures var out := Round(w, FLOOR3, CAP3);
      OneSided(out, FLOOR3, CAP3) && Excess(out, FLOOR3, CAP3) <= 0.6 * Excess(w, FLOOR3, CAP3)
  {
    hide Round, Clamped, Total, Under, Over, Highs;
    if Over(w, CAP3) == 0.0 {
      FloorContraction(w, FLOOR3, CAP3, Under(w, FLOOR3));
    } else {
      CapContraction(w, FLOOR3, CAP3, Over(w, CAP3));
      CapRate(Over(w, CAP3));
      assert Highs(Round(w, FLOOR3, CAP3), CAP3) <= 1;
    }
    RoundSumsToOne(w, FLOOR3, CAP3);
  }

  lemma {:induction false} Convergence(w: seq<real>, done: nat, rounds: nat)
    requires |w| == 3 && OneSided(w, FLOOR3, CAP3) && Excess(w, FLOOR3, CAP3) <= Power(0.6, done) / 6.0
    ensures var out := Iterate(w, FLOOR3, CAP3, rounds);
      && OneSided(out, FLOOR3, CAP3)
      && (rounds > 0 ==>
            Settled(out, FLOOR3, CAP3) || Excess(out, FLOOR3, CAP3) <= Power(0.6, done + rounds) / 6.0)
    decreases rounds
  {
    if rounds > 0 {
      PowerSmall(done);
      Contraction(w);
      if !Settled(Round(w, FLOOR3, CAP3), FLOOR3, CAP3) {
        Convergence(Round(w, FLOOR3, CAP3), done + 1, rounds - 1);
      }
    }
  }

  lemma {:induction false} PowerSmall(n: nat)
    ensures 0.0 < Power(0.6, n) <= 1.0 && (n == 0 ==> Power(0.6, n) == 1.0)
    ensures n >= 10 ==> Power(0.6, n) <= 0.00605 * Power(0.6, n - 10)
  {
    if n > 0 {
      PowerSmall(n - 1);
    }
    if n >= 10 {
      var p := Power(0.6, n - 10);
      assert Power(0.6, n - 8) == 0.36 * p;
      assert Power(0.6, n - 6) == 0.1296 * p;
      assert Power(0.6, n - 4) == 0.046656 * p;
      assert Power(0.6, n - 2) == 0.01679616 * p;
    }
  }

  lemma PowerTiny(n: nat)
    requires n >= 49
    ensures Power(0.6, n) / 6.0 <= TOLERANCE
  {
    hide Power;
    PowerSmall(n);
    PowerSmall(n - 10);
    PowerSmall(n - 20);
    PowerSmall(n - 30);
    PowerSmall(n - 40);
  }

  /** Any three numbers end within 1e-9 of the bounds: fifty rounds, or more, always suffice. */
  lemma FiftyRoundsSuffice(w: seq<real>, rounds: nat)
    requires |w| == 3 && rounds >= ROUNDS
    ensures Settled(Iterate(w, FLOOR3, CAP3, rounds), FLOOR3, CAP3)
  {
    hide Round, Clamped, Total, Under, Over, Power;
    FirstRound(w);
    var out := Round(w, FLOOR3, CAP3);
    if !Settled(out, FLOOR3, CAP3) {
      PowerSmall(0);
      Convergence(out, 0, rounds - 1);
      PowerTiny(rounds - 1);
      if !Settled(Iterate(out, FLOOR3, CAP3, rounds - 1), FLOOR3, CAP3) {
        ExcessSettles(Iterate(out, FLOOR3, CAP3, rounds - 1), FLOOR3, CAP3);
      }
    }
  }

  /** A first round outside the bounds, which therefore stays outside for ever: the configured bounds and one strong
      load. */
  lemma StaysOutside(rounds: nat)
    requires rounds > 0
    ensures Total(Clamped([0.9, 0.05, 0.05], FLOOR3, CAP3)) > 0.0
    ensures Round([0.9, 0.05, 0.05], FLOOR3, CAP3) == [0.6, 0.2, 0.2]
    ensures !Within(Iterate([0.9, 0.05, 0.05], FLOOR3, CAP3, rounds), FLOOR3, CAP3)
  {
    var w := [0.9, 0.05, 0.05];
    TotalOfThree(Clamped(w, FLOOR3, CAP3));
    assert Round(w, FLOOR3, CAP3) == [0.6, 0.2, 0.2];
    ElementWithinExcess([0.6, 0.2, 0.2], FLOOR3, CAP3, 0);
    WithinIffFirstRound(w, FLOOR3, CAP3, rounds);
  }

  // ----- The policy -----

  function GetOr(d: Dict<string, real>, k: string, default: real): real {
    match Get(d, k) case Some(v) => v case None => default
  }

  /** Scores that pass the gate, negative ones as zero; demoted loads as zero. */
  function Raw(scores: Dict<string, real>, gates: Dict<string, real>, gate: real): (r: seq<real>)
    ensures |r| == |scores| && forall i :: 0 <= i < |r| ==> r[i] >= 0.0
  {
    seq(|scores|, i requires 0 <= i < |scores| =>
      if GetOr(gates, scores[i].0, 0.0) >= gate then Max(0.0, scores[i].1) else 0.0)
  }

  function Blended(scores: Dict<string, real>, raw: seq<real>, prev: Dict<string, real>, alpha: real): (r: seq<real>)
    requires |raw| == |scores| && Total(raw) > 0.0
    ensures |r| == |scores|
  {
    var equal := 1.0 / |scores| as real;
    seq(|scores|, i requires 0 <= i < |scores| =>
      alpha * (raw[i] / Total(raw)) + (1.0 - alpha) * GetOr(prev, scores[i].0, equal))
  }

  /** A multiple of the equal weight. */
  function Share(mult: real, n: nat): real
    requires n > 0
  {
    mult * (1.0 / n as real)
  }

  function Weights(scores: Dict<string, real>, gates: Dict<string, real>, prev: Dict<string, real>,
                   floorMult: real, capMult: real, gate: real, alpha: real): (r: seq<real>)
    ensures |r| == |scores|
  {
    var raw := Raw(scores, gates, gate);
    if scores == [] then []
    else if Total(raw) <= 0.0 then Equal(|scores|)
    else Iterate(Blended(scores, raw, prev, alpha), Share(floorMult, |scores|), Share(capMult, |scores|), ROUNDS)
  }

  method ComputeWeights(scores: Dict<string, real>, gates: Dict<string, real>, prev: Dict<string, real>,
                        floorMult: real, capMult: real, gate: real, alpha: real) returns (r: seq<real>)
    ensures r == Weights(scores, gates, prev, floorMult, capMult, gate, alpha)
  {
    hide Blended, Iterate, Raw, Total, Share;
    if scores == [] {
      return [];
    }
    var raw := Raw(scores, gates, gate);
    var total := Sum(raw);
    if total <= 0.0 {
      return Equal(|scores|);
    }
    r := ClampNormalize(Blended(scores, raw, prev, alpha), Share(floorMult, |scores|), Share(capMult, |scores|));
  }

  /** A load's score where its gate passes and the score is positive; everybody else counts as zero. */
  ghost predicate Counted(scores: Dict<string, real>, gates: Dict<string, real>, gate: real, counted: seq<real>) {
    && |counted| == |scores|
    && forall i :: 0 <= i < |counted| ==>
      counted[i] == if (match Get(gates, scores[i].0) case Some(g) => g >= gate case None => 0.0 >= gate)
                       && scores[i].1 > 0.0 then scores[i].1 else 0.0
  }

  /** The weight each load had before, the equal one where it had none. */
  ghost predicate Before(scores: Dict<string, real>, prev: Dict<string, real>, before: seq<real>) {
    && |before| == |scores|
    && forall i :: 0 <= i < |before| ==>
      before[i] == match Get(prev, scores[i].0) case Some(w) => w case None => 1.0 / |scores| as real
  }

  lemma CountedIsRaw(scores: Dict<string, real>, gates: Dict<string, real>, gate: real, counted: seq<real>)
    requires Counted(scores, gates, gate, counted)
    ensures Raw(scores, gates, gate) == counted
  {
  }

  /** Each load's share of the counted scores. */
  ghost predicate Shares(counted: seq<real>, share: seq<real>) {
    && |share| == |counted| && Total(counted) > 0.0
    && forall i :: 0 <= i < |share| ==> share[i] * Total(counted) == counted[i]
  }

  /** A weight has moved by the fraction alpha of the way to its load's share. */
  predicate MovedTo(alpha: real, share: real, before: real, after: real) {
    after - before == alpha * (share - before)
  }

  lemma BlendMoves(alpha: real, share: real, before: real, after: real)
    requires after == alpha * share + (1.0 - alpha) * before
    ensures MovedTo(alpha, share, before, after)
  {
    assert (1.0 - alpha) * before == before - alpha * before;
  }

  lemma QuotientIs(x: real, d: real, q: real)
    requires d > 0.0 && q * d == x
    ensures x / d == q
  {
    assert (x / d) * d == x;
    Cancel(x / d, q, d);
  }

  lemma ShareIs(mult: real, n: nat, bound: real)
    requires n > 0 && bound * n as real == mult
    ensures Share(mult, n) == bound
  {
    var one := 1.0 / n as real;
    assert one * n as real == 1.0;
    assert mult * one == bound * (n as real * one);
  }

  /** The smoothing: whatever the loads, clamping starts from weights that have moved by the fraction alpha. */
  lemma ClampingStartsSmoothed(scores: Dict<string, real>, gates: Dict<string, real>, prev: Dict<string, real>,
                               floorMult: real, capMult: real, gate: real, alpha: real, floor: real, cap: real,
                               counted: seq<real>, share: seq<real>, before: seq<real>) returns (smooth: seq<real>)
    requires Counted(scores, gates, gate, counted) && Shares(counted, share) && Before(scores, prev, before)
    requires floor * |scores| as real == floorMult && cap * |scores| as real == capMult
    ensures |smooth| == |scores| > 0
    ensures forall i :: 0 <= i < |scores| ==> MovedTo(alpha, share[i], before[i], smooth[i])
    ensures Weights(scores, gates, prev, floorMult, capMult, gate, alpha) == Iterate(smooth, floor, cap, ROUNDS)
  {
    hide Iterate, Raw, Counted, Get, MovedTo, Share;
    CountedIsRaw(scores, gates, gate, counted);
    ShareIs(floorMult, |scores|, floor);
    ShareIs(capMult, |scores|, cap);
    smooth := Blended(scores, counted, prev, alpha);
    forall i | 0 <= i < |scores|
      ensures MovedTo(alpha, share[i], before[i], smooth[i])
    {
      QuotientIs(counted[i], Total(counted), share[i]);
      BlendMoves(alpha, share[i], before[i], smooth[i]);
    }
  }

  lemma {:induction false} TotalMoves(alpha: real, share: seq<real>, before: seq<real>, after: seq<real>)
    requires |share| == |before| == |after|
    requires forall i :: 0 <= i < |after| ==> MovedTo(alpha, share[i], before[i], after[i])
    ensures Total(after) - Total(before) == alpha * (Total(share) - Total(before))
  {
    if after != [] {
      TotalMoves(alpha, share[1..], before[1..], after[1..]);
      var d, rest := share[0] - before[0], Total(share[1..]) - Total(before[1..]);
      assert alpha * (d + rest) == alpha * d + alpha * rest;
      assert MovedTo(alpha, share[0], before[0], after[0]);
    }
  }

  lemma SharesSumToOne(counted: seq<real>, share: seq<real>)
    requires Shares(counted, share)
    ensures Total(share) == 1.0
  {
    forall i | 0 <= i < |share|
      ensures counted[i] / Total(counted) == share[i]
    {
      QuotientIs(counted[i], Total(counted), share[i]);
    }
    assert Scaled(counted, Total(counted)) == share;
    ScaledTotal(counted, Total(counted));
    SelfQuotient(Total(counted));
  }

  lemma SmoothedSum(alpha: real, counted: seq<real>, share: seq<real>, before: seq<real>, smooth: seq<real>)
    requires Shares(counted, share) && |before| == |smooth| == |share| && Total(before) == 1.0
    requires forall k :: 0 <= k < |smooth| ==> MovedTo(alpha, share[k], before[k], smooth[k])
    ensures Total(smooth) == 1.0
  {
    hide Shares, MovedTo;
    SharesSumToOne(counted, share);
    TotalMoves(alpha, share, before, smooth);
  }

  /** Weights inside the bounds that sum to one are left as they are. */
  lemma InsideStays(w: seq<real>, floor: real, cap: real, rounds: nat)
    requires Total(w) == 1.0 && rounds > 0 && forall i :: 0 <= i < |w| ==> floor <= w[i] <= cap
    ensures Iterate(w, floor, cap, rounds) == w
  {
    assert Clamped(w, floor, cap) == w;
    assert Scaled(w, 1.0) == w;
  }

  lemma MoveIs(alpha: real, share: real, before: real, after: real, same: real)
    requires MovedTo(alpha, share, before, after) && MovedTo(alpha, share, before, same)
    ensures after == same
    ensures alpha == 0.0 ==> after == before
    ensures alpha == 1.0 ==> after == share
  {
  }

  /** Where no bound binds on the smoothed weights and the old weights sum to one, the new weights are exactly the
      smoothed ones: with alpha 0 the old weights, with alpha 1 the shares of the counted scores. */
  lemma SmoothedWeights(scores: Dict<string, real>, gates: Dict<string, real>, prev: Dict<string, real>,
                        floorMult: real, capMult: real, gate: real, alpha: real, floor: real, cap: real,
                        counted: seq<real>, share: seq<real>, before: seq<real>, smooth: seq<real>)
    requires Counted(scores, gates, gate, counted) && Shares(counted, share) && Before(scores, prev, before)
    requires floor * |scores| as real == floorMult && cap * |scores| as real == capMult
    requires |smooth| == |scores| && Total(before) == 1.0
    requires forall k :: 0 <= k < |scores| ==>
      MovedTo(alpha, share[k], before[k], smooth[k]) && floor <= smooth[k] <= cap
    ensures Weights(scores, gates, prev, floorMult, capMult, gate, alpha) == smooth
    ensures alpha == 0.0 ==> Weights(scores, gates, prev, floorMult, capMult, gate, alpha) == before
    ensures alpha == 1.0 ==> Weights(scores, gates, prev, floorMult, capMult, gate, alpha) == share
  {
    assert |share| == |counted| == |scores|;
    hide Weights, Iterate, Counted, MovedTo, Shares, Before, Total;
    var start := ClampingStartsSmoothed(scores, gates, prev, floorMult, capMult, gate, alpha, floor, cap,
                                        counted, share, before);
    forall k | 0 <= k < |scores|
      ensures start[k] == smooth[k]
      ensures (alpha == 0.0 ==> smooth[k] == before[k]) && (alpha == 1.0 ==> smooth[k] == share[k])
    {
      MoveIs(alpha, share[k], before[k], smooth[k], start[k]);
    }
    assert start == smooth;
    SmoothedSum(alpha, counted, share, before, smooth);
    InsideStays(smooth, floor, cap, ROUNDS);
  }

  lemma {:induction false} NothingCounted(counted: seq<real>)
    requires forall i :: 0 <= i < |counted| ==> counted[i] >= 0.0
    ensures Total(counted) >= 0.0
    ensures Total(counted) <= 0.0 <==> forall i :: 0 <= i < |counted| ==> counted[i] == 0.0
  {
    if counted != [] {
      NothingCounted(counted[1..]);
      assert counted == [counted[0]] + counted[1..];
    }
  }

  /** Without a load whose gate passes and whose score is positive, every load gets the equal weight, unsmoothed. */
  lemma NobodyCountsIsEqual(scores: Dict<string, real>, gates: Dict<string, real>, prev: Dict<string, real>,
                            floorMult: real, capMult: real, gate: real, alpha: real, counted: seq<real>, i: nat)
    requires Counted(scores, gates, gate, counted) && i < |scores|
    requires forall k :: 0 <= k < |counted| ==> counted[k] == 0.0
    ensures Weights(scores, gates, prev, floorMult, capMult, gate, alpha)[i] == 1.0 / |scores| as real
  {
    NothingCounted(counted);
    CountedIsRaw(scores, gates, gate, counted);
  }

  lemma EqualThree()
    ensures Total(Equal(3)) == 1.0 && Settled(Equal(3), FLOOR3, CAP3)
    ensures forall i :: 0 <= i < 3 ==> Equal(3)[i] > 0.0
  {
    var e := Equal(3);
    assert e[1..][1..] == e[2..] && e[2..][1..] == [];
  }

  /** Three loads under the configured multipliers, whatever the scores, gates and previous weights:
      the weights sum to one, none vanishes, and each is within 1e-9 of half to one and a half times equal. */
  lemma GuardedWeights(scores: Dict<string, real>, gates: Dict<string, real>, prev: Dict<string, real>,
                       gate: real, alpha: real)
    requires |scores| == 3
    ensures var w := Weights(scores, gates, prev, 0.5, 1.5, gate, alpha);
      && Total(w) == 1.0 && Settled(w, FLOOR3, CAP3)
      && forall i :: 0 <= i < 3 ==> w[i] > 0.0
  {
    var raw := Raw(scores, gates, gate);
    if Total(raw) <= 0.0 {
      EqualThree();
    } else {
      var b := Blended(scores, raw, prev, alpha);
      FiftyRoundsSuffice(b, ROUNDS);
      forall i | 0 <= i < 3
        ensures Iterate(b, FLOOR3, CAP3, ROUNDS)[i] > 0.0 && Total(Iterate(b, FLOOR3, CAP3, ROUNDS)) == 1.0
      {
        OrderAndPositivity(b, FLOOR3, CAP3, ROUNDS, i, i);
      }
      assert Iterate(b, FLOOR3, CAP3, ROUNDS)[0] > 0.0;
    }
  }

  predicate Demoted(scores: Dict<string, real>, gates: Dict<string, real>, gate: real, i: nat)
    requires i < |scores|
  {
    GetOr(gates, scores[i].0, 0.0) < gate
  }

  function Previous(scores: Dict<string, real>, prev: Dict<string, real>, i: nat): real
    requires i < |scores|
  {
    GetOr(prev, scores[i].0, 1.0 / |scores| as real)
  }

  lemma BlendOrder(alpha: real, x: real, y: real, p: real, q: real)
    requires 0.0 <= alpha <= 1.0 && x <= y && p <= q
    ensures alpha * x + (1.0 - alpha) * p <= alpha * y + (1.0 - alpha) * q
  {
    var rest := 1.0 - alpha;
    var ax, ay, rp, rq := alpha * x, alpha * y, rest * p, rest * q;
    Scale(alpha, x, y);
    Scale(rest, p, q);
    assert ax <= ay && rp <= rq;
    assert ax + rp <= ay + rq;
  }

  /** For any number of loads: one that is demoted, or scores no better than a load that passes the gate, and weighed
      no more before, does not end up weighing more. */
  lemma BetterLoadNoLessWeight(scores: Dict<string, real>, gates: Dict<string, real>, prev: Dict<string, real>,
                               floorMult: real, capMult: real, gate: real, alpha: real, i: nat, j: nat)
    requires i < |scores| && j < |scores| && 0.0 < floorMult <= capMult && 0.0 <= alpha <= 1.0
    requires Demoted(scores, gates, gate, i) || (!Demoted(scores, gates, gate, j) && scores[i].1 <= scores[j].1)
    requires Previous(scores, prev, i) <= Previous(scores, prev, j)
    ensures var w := Weights(scores, gates, prev, floorMult, capMult, gate, alpha); w[i] <= w[j]
  {
    hide Iterate, Total;
    var raw := Raw(scores, gates, gate);
    if Total(raw) > 0.0 {
      var b := Blended(scores, raw, prev, alpha);
      Quotient(raw[i], raw[j], Total(raw));
      BlendOrder(alpha, raw[i] / Total(raw), raw[j] / Total(raw), Previous(scores, prev, i), Previous(scores, prev, j));
      SharesOrdered(floorMult, capMult, |scores|);
      OrderAndPositivity(b, Share(floorMult, |scores|), Share(capMult, |scores|), ROUNDS, i, j);
    }
  }

  lemma SharesOrdered(floorMult: real, capMult: real, n: nat)
    requires n > 0 && 0.0 < floorMult <= capMult
    ensures 0.0 < Share(floorMult, n) <= Share(capMult, n)
  {
    PositiveQuotient(1.0, n as real);
    var equal := 1.0 / n as real;
    assert floorMult * equal > 0.0;
    Scale(equal, floorMult, capMult);
  }
}
