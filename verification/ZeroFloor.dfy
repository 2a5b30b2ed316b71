/** The documented condition floor <= 1/n <= cap with a floor of zero: which weights the rounds bring inside. */
module ZeroFloor {
  import opened WeightPolicy

  /** Some number of rounds ends within the tolerance of the bounds. */
  ghost predicate Settles(w: seq<real>, floor: real, cap: real) {
    exists k: nat :: k > 0 && Settled(Iterate(w, floor, cap, k), floor, cap)
  }

  /** Rounds that have settled stop changing anything. */
  lemma {:induction false} SettledStays(w: seq<real>, floor: real, cap: real, k: nat, more: nat)
    requires 0 < k <= more && Settled(Iterate(w, floor, cap, k), floor, cap)
    ensures Iterate(w, floor, cap, more) == Iterate(w, floor, cap, k)
    decreases k
  {
    hide Settled, Round, Clamped;
    if Total(Clamped(w, floor, cap)) > 0.0 && !Settled(Round(w, floor, cap), floor, cap) {
      SettledStays(Round(w, floor, cap), floor, cap, k - 1, more - 1);
    }
  }

  // ----- Loads at zero take no part -----

  function Positives(w: seq<real>): (p: seq<real>)
    ensures |p| <= |w| && forall i :: 0 <= i < |p| ==> p[i] > 0.0
  {
    if w == [] then [] else (if w[0] > 0.0 then [w[0]] else []) + Positives(w[1..])
  }

  lemma PositivesOf(v: real, rest: seq<real>)
    ensures Positives([v] + rest) == if v > 0.0 then [v] + Positives(rest) else Positives(rest)
    ensures Total([v] + rest) == v + Total(rest)
  {
    assert ([v] + rest)[1..] == rest;
  }

  lemma ClampedCons(v: real, rest: seq<real>, cap: real)
    ensures Clamped([v] + rest, 0.0, cap) == [Clamp(v, 0.0, cap)] + Clamped(rest, 0.0, cap)
  {
    hide Clamp;
  }

  lemma ClampSign(v: real, cap: real)
    requires cap > 0.0
    ensures Clamp(v, 0.0, cap) > 0.0 <==> v > 0.0
    ensures v <= 0.0 ==> Clamp(v, 0.0, cap) == 0.0
  {
  }

  lemma {:induction false} ClampedPositives(w: seq<real>, cap: real)
    requires cap > 0.0
    ensures Positives(Clamped(w, 0.0, cap)) == Clamped(Positives(w), 0.0, cap)
    ensures Total(Clamped(w, 0.0, cap)) == Total(Clamped(Positives(w), 0.0, cap))
  {
    hide Clamp;
    if w == [] {
      assert Clamped(w, 0.0, cap) == [];
    } else {
      var v, rest := w[0], w[1..];
      var c := Clamp(v, 0.0, cap);
      ClampedPositives(rest, cap);
      HeadClamped(w, v, rest, cap, c);
    }
  }

  lemma HeadClamped(w: seq<real>, v: real, rest: seq<real>, cap: real, c: real)
    requires cap > 0.0 && w == [v] + rest && c == Clamp(v, 0.0, cap)
    requires Positives(Clamped(rest, 0.0, cap)) == Clamped(Positives(rest), 0.0, cap)
    requires Total(Clamped(rest, 0.0, cap)) == Total(Clamped(Positives(rest), 0.0, cap))
    ensures Positives(Clamped(w, 0.0, cap)) == Clamped(Positives(w), 0.0, cap)
    ensures Total(Clamped(w, 0.0, cap)) == Total(Clamped(Positives(w), 0.0, cap))
  {
    hide *;
    ClampSign(v, cap);
    ClampedCons(v, rest, cap);
    ClampedCons(v, Positives(rest), cap);
    PositivesOf(v, rest);
    PositivesOf(c, Clamped(rest, 0.0, cap));
    PositivesOf(c, Clamped(Positives(rest), 0.0, cap));
  }

  lemma {:induction false} ScaledPositives(w: seq<real>, z: real)
    requires z > 0.0
    ensures Positives(Scaled(w, z)) == Scaled(Positives(w), z)
  {
    if w == [] {
      assert Scaled(w, z) == [];
    } else {
      var v, rest := w[0], w[1..];
      ScaledPositives(rest, z);
      SignOfQuotient(v, z);
      assert w == [v] + rest && Scaled(w, z) == [v / z] + Scaled(rest, z);
      assert Scaled([v] + Positives(rest), z) == [v / z] + Scaled(Positives(rest), z);
      PositivesOf(v, rest);
      PositivesOf(v / z, Scaled(rest, z));
    }
  }

  lemma SignOfQuotient(v: real, z: real)
    requires z > 0.0
    ensures v / z > 0.0 <==> v > 0.0
  {
    if v > 0.0 {
      PositiveQuotient(v, z);
    } else {
      Quotient(v, 0.0, z);
    }
  }

  lemma {:induction false} SettledPositives(w: seq<real>, cap: real)
    requires cap > 0.0 && forall i :: 0 <= i < |w| ==> w[i] >= 0.0
    ensures Settled(w, 0.0, cap) <==> Settled(Positives(w), 0.0, cap)
  {
    if w != [] {
      SettledPositives(w[1..], cap);
      SettledHead(w, cap);
      if w[0] > 0.0 {
        assert ([w[0]] + Positives(w[1..]))[1..] == Positives(w[1..]);
        SettledHead(Positives(w), cap);
      } else {
        assert Positives(w) == Positives(w[1..]);
      }
    }
  }

  lemma SettledHead(w: seq<real>, cap: real)
    requires w != []
    ensures Settled(w, 0.0, cap) <==> -TOLERANCE <= w[0] <= cap + TOLERANCE && Settled(w[1..], 0.0, cap)
  {
    if Settled(w[1..], 0.0, cap) && -TOLERANCE <= w[0] <= cap + TOLERANCE {
      forall i | 0 <= i < |w|
        ensures -TOLERANCE <= w[i] <= cap + TOLERANCE
      {
        assert i > 0 ==> w[i] == w[1..][i - 1];
      }
    }
  }

  lemma PositiveClamp(p: seq<real>, cap: real)
    requires p != [] && cap > 0.0 && forall i :: 0 <= i < |p| ==> p[i] > 0.0
    ensures Total(Clamped(p, 0.0, cap)) > 0.0
    ensures forall i :: 0 <= i < |p| ==> Round(p, 0.0, cap)[i] > 0.0
  {
    var c := Clamped(p, 0.0, cap);
    AllPositiveTotal(c);
    forall i | 0 <= i < |p|
      ensures Round(p, 0.0, cap)[i] > 0.0
    {
      PositiveQuotient(c[i], Total(c));
    }
  }

  lemma {:induction false} AllPositiveTotal(c: seq<real>)
    requires c != [] && forall i :: 0 <= i < |c| ==> c[i] > 0.0
    ensures Total(c) > 0.0
  {
    if |c| > 1 {
      AllPositiveTotal(c[1..]);
    }
  }

  lemma RoundPositives(w: seq<real>, cap: real)
    requires cap > 0.0 && Positives(w) != []
    ensures Total(Clamped(w, 0.0, cap)) > 0.0 && Total(Clamped(Positives(w), 0.0, cap)) > 0.0
    ensures Positives(Round(w, 0.0, cap)) == Round(Positives(w), 0.0, cap)
    ensures forall i :: 0 <= i < |w| ==> Round(w, 0.0, cap)[i] >= 0.0
  {
    ClampedPositives(w, cap);
    PositiveClamp(Positives(w), cap);
    ScaledPositives(Clamped(w, 0.0, cap), Total(Clamped(w, 0.0, cap)));
    RoundNonNegative(w, 0.0, cap);
  }

  /** Any number of rounds settles the weights exactly when it settles the positive ones alone. */
  lemma {:induction false} RoundsOfPositives(w: seq<real>, cap: real, rounds: nat)
    requires cap > 0.0 && Positives(w) != [] && rounds > 0
    ensures Settled(Iterate(w, 0.0, cap, rounds), 0.0, cap)
       <==> Settled(Iterate(Positives(w), 0.0, cap, rounds), 0.0, cap)
    decreases rounds
  {
    hide Settled, Round, Clamped, Total;
    RoundPositives(w, cap);
    var out := Round(w, 0.0, cap);
    SettledPositives(out, cap);
    if !Settled(out, 0.0, cap) && rounds > 1 {
      RoundsOfPositives(out, cap, rounds - 1);
    }
  }

  // ----- Positive weights that share one -----

  ghost predicate Shares(p: seq<real>) {
    p != [] && Total(p) == 1.0 && forall i :: 0 <= i < |p| ==> p[i] > 0.0
  }

  lemma RoundShares(p: seq<real>, cap: real)
    requires p != [] && cap > 0.0 && forall i :: 0 <= i < |p| ==> p[i] > 0.0
    ensures Total(Clamped(p, 0.0, cap)) > 0.0 && Shares(Round(p, 0.0, cap))
  {
    hide Round, Clamped;
    PositiveClamp(p, cap);
    RoundSumsToOne(p, 0.0, cap);
  }

  lemma {:induction false} IterateShares(p: seq<real>, cap: real, rounds: nat)
    requires Shares(p) && cap > 0.0
    ensures Shares(Iterate(p, 0.0, cap, rounds))
    decreases rounds
  {
    hide Round, Clamped, Settled;
    if rounds > 0 {
      RoundShares(p, cap);
      if !Settled(Round(p, 0.0, cap), 0.0, cap) {
        IterateShares(Round(p, 0.0, cap), cap, rounds - 1);
      }
    }
  }

  lemma {:induction false} TotalAtMost(p: seq<real>, bound: real)
    requires forall i :: 0 <= i < |p| ==> p[i] <= bound
    ensures Total(p) <= Times(|p|, bound)
  {
    if p != [] {
      TotalAtMost(p[1..], bound);
    }
  }

  lemma {:induction false} Least(p: seq<real>) returns (least: real)
    requires Shares(p) || (p != [] && forall i :: 0 <= i < |p| ==> p[i] > 0.0)
    ensures least > 0.0 && Times(|p|, least) <= Total(p) && forall i :: 0 <= i < |p| ==> p[i] >= least
  {
    if |p| == 1 {
      least := p[0];
    } else {
      var rest := Least(p[1..]);
      least := if p[0] < rest then p[0] else rest;
      TimesMonotone(|p| - 1, |p| - 1, least, rest);
    }
  }

  /** The cap has room for all of one: no load falls below the least of them, which acts as a floor. */
  lemma {:induction false} SameAsFloor(p: seq<real>, least: real, cap: real, rounds: nat)
    requires Shares(p) && 0.0 < least <= cap && Under(p, least) == 0.0
    ensures Iterate(p, 0.0, cap, rounds) == Iterate(p, least, cap, rounds)
    decreases rounds
  {
    hide Total, Under, Over, Settled;
    if rounds > 0 {
      NoneUnder(p, least);
      assert Clamped(p, 0.0, cap) == Clamped(p, least, cap);
      RoundShares(p, cap);
      ClampBalance(p, least, cap);
      RoundIsOneSided(p, least, cap);
      var out := Round(p, least, cap);
      NoneUnder(out, least);
      LowerFloorSettles(out, least, cap);
      if !Settled(out, 0.0, cap) {
        SameAsFloor(out, least, cap, rounds - 1);
      }
    }
  }

  lemma LowerFloorSettles(p: seq<real>, least: real, cap: real)
    requires least > 0.0 && forall i :: 0 <= i < |p| ==> p[i] >= least
    ensures Settled(p, 0.0, cap) <==> Settled(p, least, cap)
  {
  }

  lemma RoundsFor(least: real) returns (rounds: nat)
    requires least > 0.0
    ensures rounds > 0 && (rounds - 1) as real * (least / 4.0) * TOLERANCE >= 1.0
  {
    var step := least / 4.0 * TOLERANCE;
    var enough := (1.0 / step).Floor + 1;
    PositiveQuotient(1.0, step);
    rounds := enough + 1;
    Scale(step, 1.0 / step, enough as real);
    assert 1.0 / step * step == 1.0;
  }

  lemma RoomSettles(p: seq<real>, cap: real) returns (rounds: nat)
    requires Shares(p) && cap > 0.0 && Times(|p|, cap) >= 1.0
    ensures rounds > 0 && Settled(Iterate(p, 0.0, cap, rounds), 0.0, cap)
  {
    hide Settled, Iterate;
    var least := Least(p);
    if least > cap {
      TimesMonotone(|p|, |p|, cap, least);
      Strictly(|p|, cap, least);
    }
    NothingUnder(p, least);
    rounds := RoundsFor(least);
    SameAsFloor(p, least, cap, rounds);
    EnoughRoundsSettle(p, least, cap, rounds);
    FloorZeroSettles(Iterate(p, least, cap, rounds), least, cap);
  }

  lemma Strictly(n: nat, x: real, y: real)
    requires n > 0 && x < y
    ensures Times(n, x) < Times(n, y)
  {
    StrictScale(n as real, y - x);
    assert n as real * (y - x) == n as real * y - n as real * x;
  }

  lemma FloorZeroSettles(p: seq<real>, least: real, cap: real)
    requires least >= 0.0 && Settled(p, least, cap)
    ensures Settled(p, 0.0, cap)
  {
  }

  // ----- The cap falls short by no more than the tolerance -----

  lemma {:induction false} TotalOfEqual(p: seq<real>, x: real)
    requires forall i :: 0 <= i < |p| ==> p[i] == x
    ensures Total(p) == Times(|p|, x)
  {
    if p != [] {
      TotalOfEqual(p[1..], x);
    }
  }

  lemma EqualShare(share: real, n: real, cap: real, z: real, bound: real)
    requires cap > 0.0 && n > 0.0 && z == n * cap && share * z == cap && n * bound >= 1.0
    ensures share <= bound
  {
    assert share * z == (share * n) * cap;
    Cancel(share * n, 1.0, cap);
    Cancel(share, bound, n);
  }

  /** Once every load reaches the cap, one round makes them equal. */
  lemma AllCapped(p: seq<real>, cap: real)
    requires Shares(p) && cap > 0.0 && Times(|p|, cap + TOLERANCE) >= 1.0 && forall i :: 0 <= i < |p| ==> p[i] >= cap
    ensures Total(Clamped(p, 0.0, cap)) > 0.0 && Settled(Round(p, 0.0, cap), 0.0, cap)
  {
    RoundShares(p, cap);
    TotalOfEqual(Clamped(p, 0.0, cap), cap);
    var z := Times(|p|, cap);
    var share := cap / z;
    assert share * z == cap;
    EqualShare(share, |p| as real, cap, z, cap + TOLERANCE);
  }

  /** Every load is at least s, but for a factor lost so far. */
  ghost predicate Grown(p: seq<real>, s: real, factor: real) {
    forall i :: 0 <= i < |p| ==> p[i] * factor >= s
  }

  lemma CappedGrows(v: real, c: real, z: real, r: real, factor: real, s: real, next: real)
    requires c > 0.0 && 0.0 < z <= r && factor >= 0.0 && v == c / z && c * factor >= s && next == r * factor
    ensures v * next >= s
  {
    assert v * z == c;
    Cancel(0.0, v, z);
    Scale(v, z, r);
    Scale(factor, v * z, v * r);
    assert v * next == factor * (v * r);
  }

  /** A round that does not settle lets every load below the cap grow. */
  lemma RoundGrows(p: seq<real>, cap: real, s: real, factor: real, r: real, next: real)
    requires Shares(p) && cap > 0.0 && r == Times(|p|, cap) && Times(|p|, cap + TOLERANCE) >= 1.0
    requires factor >= 0.0 && Grown(p, s, factor) && next == r * factor
    ensures Total(Clamped(p, 0.0, cap)) > 0.0
    ensures Settled(Round(p, 0.0, cap), 0.0, cap) || Grown(Round(p, 0.0, cap), s, next)
  {
    hide Times, Settled;
    RoundShares(p, cap);
    var c := Clamped(p, 0.0, cap);
    if j :| 0 <= j < |p| && p[j] < cap {
      TotalAtMost(c, cap);
      Scale(factor, p[j], cap);
      assert p[j] * factor >= s;
      ClampedGrown(p, c, cap, s, factor);
      ScaledGrown(c, Total(c), r, factor, s, next);
    } else {
      AllCapped(p, cap);
    }
  }

  lemma ClampedGrown(p: seq<real>, c: seq<real>, cap: real, s: real, factor: real)
    requires c == Clamped(p, 0.0, cap) && cap * factor >= s && Grown(p, s, factor) && Shares(p)
    ensures Grown(c, s, factor)
  {
    forall i | 0 <= i < |c|
      ensures c[i] * factor >= s
    {
      assert p[i] * factor >= s;
      assert c[i] == p[i] || c[i] == cap;
    }
  }

  lemma ScaledGrown(c: seq<real>, z: real, r: real, factor: real, s: real, next: real)
    requires 0.0 < z <= r && factor >= 0.0 && next == r * factor && Grown(c, s, factor)
    requires forall i :: 0 <= i < |c| ==> c[i] > 0.0
    ensures Grown(Scaled(c, z), s, next)
  {
    var out := Scaled(c, z);
    forall i | 0 <= i < |out|
      ensures out[i] * next >= s
    {
      CappedGrows(out[i], c[i], z, r, factor, s, next);
    }
  }

  lemma {:induction false} GrowsOrSettles(p: seq<real>, cap: real, s: real, r: real, done: nat, rounds: nat)
    requires Shares(p) && cap > 0.0 && r == Times(|p|, cap) <= 1.0 <= Times(|p|, cap + TOLERANCE)
    requires Grown(p, s, Power(r, done))
    ensures var out := Iterate(p, 0.0, cap, rounds);
      (rounds > 0 && Settled(out, 0.0, cap)) || Grown(out, s, Power(r, done + rounds))
    decreases rounds
  {
    hide Settled, Round, Clamped, Grown, Shares, Times;
    if rounds > 0 {
      ShareIsPositive(p, cap);
      Bernoulli(1.0 - r, done);
      assert 1.0 - (1.0 - r) == r;
      RoundGrows(p, cap, s, Power(r, done), r, Power(r, done + 1));
      RoundKeepsShares(p, cap);
      if !Settled(Round(p, 0.0, cap), 0.0, cap) {
        GrowsOrSettles(Round(p, 0.0, cap), cap, s, r, done + 1, rounds - 1);
      }
    }
  }

  lemma RoundKeepsShares(p: seq<real>, cap: real)
    requires Shares(p) && cap > 0.0
    ensures Total(Clamped(p, 0.0, cap)) > 0.0 && Shares(Round(p, 0.0, cap))
  {
    RoundShares(p, cap);
  }

  lemma ShareIsPositive(p: seq<real>, cap: real)
    requires Shares(p) && cap > 0.0
    ensures Times(|p|, cap) > 0.0
  {
    StrictScale(|p| as real, cap);
  }

  lemma NothingAboveOne(p: seq<real>)
    requires Shares(p)
    ensures p != [] && 0.0 < p[0] <= 1.0
  {
    if |p| > 1 {
      AllPositiveTotal(p[1..]);
    } else {
      assert Total(p[1..]) == 0.0;
    }
  }

  lemma Divided(v: real, z: real) returns (q: real)
    requires v > 0.0 && z > 0.0
    ensures q * z == v && q > 0.0
  {
    q := v / z;
    PositiveQuotient(v, z);
  }

  /** A power of r below s. */
  lemma SmallEnough(r: real, s: real) returns (n: nat)
    requires 0.0 < r < 1.0 && s > 0.0
    ensures n > 0 && Power(r, n) < s
  {
    var x := 1.0 - r;
    var inverse := Divided(1.0, s);
    var q := Divided(inverse, x);
    n := q.Floor + 1;
    Scale(x, q, n as real);
    Bernoulli(x, n);
    assert 1.0 - x == r;
    BelowShare(Power(r, n), s, inverse, n as real * x);
  }

  lemma BelowShare(p: real, s: real, inverse: real, steps: real)
    requires p >= 0.0 && s > 0.0 && inverse * s == 1.0 && steps >= inverse && p * (1.0 + steps) <= 1.0
    ensures p < s
  {
    Scale(s, inverse, steps);
    assert s * (1.0 + steps) == s + s * steps;
    if p >= s {
      Scale(1.0 + steps, s, p);
    }
  }

  lemma ShortSettles(p: seq<real>, cap: real) returns (rounds: nat)
    requires Shares(p) && cap > 0.0 && Times(|p|, cap) < 1.0 <= Times(|p|, cap + TOLERANCE)
    ensures rounds > 0 && Settled(Iterate(p, 0.0, cap, rounds), 0.0, cap)
  {
    hide Settled, Iterate, Times;
    var least := Least(p);
    var r := Times(|p|, cap);
    ShareIsPositive(p, cap);
    rounds := SmallEnough(r, least);
    assert Power(r, 0) == 1.0;
    GrowsOrSettles(p, cap, least, r, 0, rounds);
    IterateShares(p, cap, rounds);
    var out := Iterate(p, 0.0, cap, rounds);
    if !Settled(out, 0.0, cap) {
      NothingAboveOne(out);
      NotGrown(out, least, Power(r, rounds));
    }
  }

  lemma SmallProduct(v: real, factor: real, s: real)
    requires 0.0 < v <= 1.0 && factor < s && s > 0.0
    ensures v * factor < s
  {
    var k := if factor > 0.0 then factor else 0.0;
    Scale(v, factor, k);
    Scale(k, v, 1.0);
  }

  lemma NotGrown(p: seq<real>, s: real, factor: real)
    requires p != [] && 0.0 < p[0] <= 1.0 && factor < s && s > 0.0
    ensures !Grown(p, s, factor)
  {
    SmallProduct(p[0], factor, s);
  }

  // ----- Exactly when the rounds settle -----

  lemma {:induction false} NoPositives(w: seq<real>, cap: real)
    requires cap > 0.0 && Positives(w) == []
    ensures Total(Clamped(w, 0.0, cap)) == 0.0
  {
    ClampedPositives(w, cap);
    assert Clamped([], 0.0, cap) == [];
  }

  lemma EqualSettles(n: nat, cap: real)
    requires n > 0 && Times(n, cap) >= 1.0
    ensures Settled(Equal(n), 0.0, cap)
  {
    QuotientAtMost(1.0, n as real, cap);
    PositiveQuotient(1.0, n as real);
  }

  lemma QuotientAtMost(x: real, n: real, bound: real)
    requires n > 0.0 && x <= n * bound
    ensures x / n <= bound
  {
    assert (x / n) * n == x;
    Cancel(x / n, bound, n);
  }

  lemma SomeCap(n: nat, cap: real)
    requires n > 0 && Times(n, cap) >= 1.0
    ensures cap > 0.0
  {
    if cap <= 0.0 {
      Scale(n as real, cap, 0.0);
    }
  }

  /** Settled weights that share one fit under the cap. */
  lemma SettledFits(p: seq<real>, cap: real, rounds: nat)
    requires Shares(p) && cap > 0.0 && Settled(Iterate(p, 0.0, cap, rounds), 0.0, cap)
    ensures Times(|p|, cap + TOLERANCE) >= 1.0
  {
    hide Times;
    IterateShares(p, cap, rounds);
    TotalAtMost(Iterate(p, 0.0, cap, rounds), cap + TOLERANCE);
  }

  lemma {:induction false} SharesSettle(p: seq<real>, cap: real) returns (rounds: nat)
    requires Shares(p) && cap > 0.0 && Times(|p|, cap + TOLERANCE) >= 1.0
    ensures rounds > 0 && Settled(Iterate(p, 0.0, cap, rounds), 0.0, cap)
  {
    hide Settled, Iterate, Times;
    if Times(|p|, cap) >= 1.0 {
      rounds := RoomSettles(p, cap);
    } else {
      rounds := ShortSettles(p, cap);
    }
  }

  lemma NextIterate(p: seq<real>, cap: real, rounds: nat)
    requires rounds > 0 && Total(Clamped(p, 0.0, cap)) > 0.0
    ensures var first := Round(p, 0.0, cap);
      Iterate(p, 0.0, cap, rounds)
      == if Settled(first, 0.0, cap) then first else Iterate(first, 0.0, cap, rounds - 1)
  {
    hide Settled, Round, Clamped, Total;
  }

  /** Positive numbers settle exactly when they would fit under the cap together. */
  lemma PositivesSettleIff(p: seq<real>, cap: real)
    requires p != [] && cap > 0.0 && forall i :: 0 <= i < |p| ==> p[i] > 0.0
    ensures Settles(p, 0.0, cap) <==> Times(|p|, cap + TOLERANCE) >= 1.0
  {
    hide Settled, Round, Clamped, Times, Shares;
    RoundShares(p, cap);
    var first := Round(p, 0.0, cap);
    if Times(|p|, cap + TOLERANCE) >= 1.0 {
      var rounds := SharesSettle(first, cap);
      var k := rounds + 1;
      NextIterate(p, cap, k);
      assert Settled(Iterate(p, 0.0, cap, k), 0.0, cap);
    }
    if Settles(p, 0.0, cap) {
      var k: nat :| k > 0 && Settled(Iterate(p, 0.0, cap, k), 0.0, cap);
      NextIterate(p, cap, k);
      SettledFits(first, cap, if Settled(first, 0.0, cap) then 0 else k - 1);
    }
  }

  /** With a floor of zero and 1/n <= cap: the rounds settle exactly when nothing is positive (then the weights are
      made equal) or the positive weights fit under the cap, with the tolerance, without the others. */
  lemma ZeroFloorSettlesIff(w: seq<real>, cap: real)
    requires w != [] && Times(|w|, cap) >= 1.0
    ensures Settles(w, 0.0, cap) <==> Positives(w) == [] || Times(|Positives(w)|, cap + TOLERANCE) >= 1.0
  {
    hide Settled, Iterate, Times;
    SomeCap(|w|, cap);
    if Positives(w) == [] {
      NoPositives(w, cap);
      EqualSettles(|w|, cap);
      EqualAtOnce(w, cap);
    } else {
      PositivesSettleIff(Positives(w), cap);
      if Settles(w, 0.0, cap) {
        var k: nat :| k > 0 && Settled(Iterate(w, 0.0, cap, k), 0.0, cap);
        RoundsOfPositives(w, cap, k);
      }
      if Settles(Positives(w), 0.0, cap) {
        var k: nat :| k > 0 && Settled(Iterate(Positives(w), 0.0, cap, k), 0.0, cap);
        RoundsOfPositives(w, cap, k);
      }
    }
  }

  lemma EqualAtOnce(w: seq<real>, cap: real)
    requires Total(Clamped(w, 0.0, cap)) == 0.0 && Settled(Equal(|w|), 0.0, cap)
    ensures Settles(w, 0.0, cap)
  {
    assert Iterate(w, 0.0, cap, 1) == Equal(|w|);
  }

  // ----- The documented condition -----

  /** One load holds everything. */
  function OneLoad(n: nat): (w: seq<real>)
    requires n > 0
    ensures |w| == n && w[0] == 1.0 && forall i :: 1 <= i < n ==> w[i] == 0.0
  {
    seq(n, i requires 0 <= i < n => if i == 0 then 1.0 else 0.0)
  }

  lemma {:induction false} ZerosTotal(w: seq<real>)
    requires forall i :: 0 <= i < |w| ==> w[i] == 0.0
    ensures Total(w) == 0.0 && Positives(w) == []
  {
    if w != [] {
      ZerosTotal(w[1..]);
    }
  }

  /** It is cut to the cap and scaled back, for ever: with a floor of zero and a cap below one, no number of rounds
      settles it. */
  lemma {:induction false} OneLoadNeverSettles(n: nat, cap: real, rounds: nat)
    requires n > 0 && cap > 0.0 && cap + TOLERANCE < 1.0
    ensures Iterate(OneLoad(n), 0.0, cap, rounds) == OneLoad(n) && !Settled(OneLoad(n), 0.0, cap)
  {
    var w := OneLoad(n);
    assert w[0] > cap + TOLERANCE;
    if rounds > 0 {
      var c := Clamped(w, 0.0, cap);
      ZerosTotal(c[1..]);
      SelfQuotient(cap);
      assert Round(w, 0.0, cap) == w;
      OneLoadNeverSettles(n, cap, rounds - 1);
    }
  }

  lemma PositiveFloorSettles(w: seq<real>, floor: real, cap: real)
    requires Feasible(|w|, floor, cap)
    ensures Settles(w, floor, cap)
  {
    hide Settled, Iterate, Feasible;
    assert floor > 0.0 by { FloorOf(|w|, floor, cap); }
    var rounds := RoundsFor(floor);
    EnoughRoundsSettle(w, floor, cap, rounds);
  }

  lemma FloorOf(n: nat, floor: real, cap: real)
    requires Feasible(n, floor, cap)
    ensures floor > 0.0
  {
  }

  lemma FloorBelowCap(n: nat, floor: real, cap: real)
    requires n > 0 && Times(n, floor) <= 1.0 <= Times(n, cap)
    ensures floor <= cap
  {
    if cap < floor {
      Strictly(n, cap, floor);
    }
  }

  /** For n loads and any floor and cap with 0 <= floor <= 1/n <= cap: the rounds settle whatever the weights if and
      only if the floor is positive or the cap, with the tolerance, lets one load hold everything. */
  lemma SettlesAlwaysIff(n: nat, floor: real, cap: real)
    requires n > 0 && floor >= 0.0 && Times(n, floor) <= 1.0 <= Times(n, cap)
    ensures (forall w: seq<real> :: |w| == n ==> Settles(w, floor, cap)) <==> floor > 0.0 || cap + TOLERANCE >= 1.0
  {
    hide Settles, Times;
    FloorBelowCap(n, floor, cap);
    SomeCap(n, cap);
    if floor > 0.0 {
      assert Feasible(n, floor, cap);
      forall w: seq<real> | |w| == n
        ensures Settles(w, floor, cap)
      {
        PositiveFloorSettles(w, floor, cap);
      }
    } else if cap + TOLERANCE >= 1.0 {
      forall w: seq<real> | |w| == n
        ensures Settles(w, floor, cap)
      {
        ZeroFloorSettlesIff(w, cap);
        if Positives(w) != [] {
          OneFits(|Positives(w)|, cap + TOLERANCE);
        }
      }
    } else {
      StuckForEver(n, cap);
      assert |OneLoad(n)| == n && !Settles(OneLoad(n), floor, cap);
    }
  }

  lemma OneFits(m: nat, bound: real)
    requires m > 0 && bound >= 1.0
    ensures Times(m, bound) >= 1.0
  {
    Scale(m as real, 1.0, bound);
  }

  lemma StuckForEver(n: nat, cap: real)
    requires n > 0 && cap > 0.0 && cap + TOLERANCE < 1.0
    ensures !Settles(OneLoad(n), 0.0, cap)
  {
    hide Settled, Iterate;
    forall k: nat | k > 0
      ensures !Settled(Iterate(OneLoad(n), 0.0, cap, k), 0.0, cap)
    {
      OneLoadNeverSettles(n, cap, k);
    }
  }
}
