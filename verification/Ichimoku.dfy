/** The weekly cloud strategy: what to leave, what to buy with the money, and the fills that follow. */
module Ichimoku {
  import opened Money
  import opened Dict
  import opened Schemas
  import opened Ledger
  import opened PaperLedger

  const BUY_COST := 1.0 + FEE_RATE
  const SELL_KEEP := 1.0 - SELL_RATE
  const STALE_HOLD_DAYS := 14

  datatype Signal = Signal(entry: bool, exit: bool, breakout: real, close: Option<real>)

  datatype Market = Market(
    signals: Dict<string, Signal>, closes: map<string, real>,
    lastBar: map<string, int>, today: int)

  datatype Plan = Plan(sells: seq<Trade>, buys: seq<Trade>, keep: Dict<string, int>, targets: seq<string>)

  /** The latest daily close, else the weekly close of the signal; a missing or zero price is no price. */
  function Px(m: Market, symbol: string): (px: Option<real>)
    ensures px.Some? ==> px.value != 0.0
    ensures symbol in m.closes && m.closes[symbol] > 0.0 ==> px == Some(m.closes[symbol])
    ensures (symbol !in m.closes || m.closes[symbol] <= 0.0) && px.Some? ==>
      Get(m.signals, symbol).Some? && px == Get(m.signals, symbol).value.close
    ensures px.None? <==>
      && (symbol !in m.closes || m.closes[symbol] <= 0.0)
      && match Get(m.signals, symbol) case Some(sig) => sig.close.None? || sig.close.value == 0.0 case None => true
  {
    if symbol in m.closes && m.closes[symbol] > 0.0 then Some(m.closes[symbol])
    else
      match Get(m.signals, symbol)
      case Some(sig) => if sig.close.Some? && sig.close.value != 0.0 then sig.close else None
      case None => None
  }

  /** Exit signal, lost signal, or no bar for too long; a holding without a price stays for the next run. */
  predicate Leaves(m: Market, symbol: string): (r: bool)
    ensures r ==> Px(m, symbol).Some?
  {
    var sig := Get(m.signals, symbol);
    var stale := symbol !in m.lastBar || m.today - m.lastBar[symbol] > STALE_HOLD_DAYS;
    (sig.None? || sig.value.exit || stale) && Px(m, symbol).Some?
  }

  function Sold(m: Market, held: Dict<string, int>, n: nat): seq<Trade>
    requires n <= |held|
  {
    if n == 0 then []
    else
      var (symbol, qty) := held[n - 1];
      if Leaves(m, symbol) then Sold(m, held, n - 1) + [Trade(symbol, qty, Px(m, symbol).value)]
      else Sold(m, held, n - 1)
  }

  function Kept(m: Market, held: Dict<string, int>, n: nat): Dict<string, int>
    requires n <= |held|
  {
    if n == 0 then []
    else if Leaves(m, held[n - 1].0) then Kept(m, held, n - 1)
    else Set(Kept(m, held, n - 1), held[n - 1].0, held[n - 1].1)
  }

  /** Sale money as the planner counts it. */
  function Raised(sells: seq<Trade>, n: nat): real
    requires n <= |sells|
  {
    if n == 0 then 0.0 else Raised(sells, n - 1) + Worth(sells[n - 1]) * SELL_KEEP
  }

  function Spent(buys: seq<Trade>, n: nat): real
    requires n <= |buys|
  {
    if n == 0 then 0.0 else Spent(buys, n - 1) + Worth(buys[n - 1]) * BUY_COST
  }

  function KeptWorth(m: Market): (string, int) -> real {
    (s: string, q: int) => if s in m.closes then Amount(m.closes[s], q as real) else 0.0
  }

  function PerName(m: Market, keep: Dict<string, int>, avail: real, maxPositions: int): real {
    (avail + Sum(keep, KeptWorth(m))) / (if maxPositions > 1 then maxPositions else 1) as real
  }

  // ----- Candidates, strongest breakout first -----

  /** Dictionary order: the first difference decides, and a proper prefix comes first. */
  predicate LexLess(a: string, b: string) {
    b != "" && (a == "" || a[0] < b[0] || (a[0] == b[0] && LexLess(a[1..], b[1..])))
  }

  /** The first k characters agree, and the next one is smaller or missing. */
  predicate LessAt(a: string, b: string, k: nat) {
    k <= |a| && k < |b| && a[..k] == b[..k] && (k == |a| || a[k] < b[k])
  }

  lemma {:induction false} LexMeans(a: string, b: string)
    ensures LexLess(a, b) <==> exists k: nat :: LessAt(a, b, k)
  {
    if a == "" {
      assert b != "" ==> LessAt(a, b, 0);
    } else if b != "" {
      if a[0] != b[0] {
        assert a[0] < b[0] ==> LessAt(a, b, 0);
        forall k: nat | LessAt(a, b, k)
          ensures a[0] < b[0]
        {
          assert k > 0 ==> a[..k][0] == b[..k][0];
        }
      } else {
        LexMeans(a[1..], b[1..]);
        if k: nat :| LessAt(a[1..], b[1..], k) {
          assert a[..k + 1] == [a[0]] + a[1..][..k] && b[..k + 1] == [b[0]] + b[1..][..k];
          assert LessAt(a, b, k + 1);
        }
        if k: nat :| LessAt(a, b, k) {
          assert k > 0;
          assert a[1..][..k - 1] == a[..k][1..] && b[1..][..k - 1] == b[..k][1..];
          assert LessAt(a[1..], b[1..], k - 1);
        }
      }
    }
  }

  lemma {:induction false} LexTotal(a: string, b: string)
    ensures LexLess(a, b) || LexLess(b, a) || a == b
    ensures !(LexLess(a, b) && LexLess(b, a))
  {
    if a != "" && b != "" && a[0] == b[0] {
      LexTotal(a[1..], b[1..]);
      assert a == [a[0]] + a[1..] && b == [b[0]] + b[1..];
    }
  }

  lemma {:induction false} LexTransitive(a: string, b: string, c: string)
    requires LexLess(a, b) && LexLess(b, c)
    ensures LexLess(a, c)
  {
    if a != "" && a[0] == b[0] == c[0] {
      LexTransitive(a[1..], b[1..], c[1..]);
    }
  }

  type Candidate = (string, Signal)

  predicate Before(a: Candidate, b: Candidate) {
    a.1.breakout > b.1.breakout || (a.1.breakout == b.1.breakout && LexLess(a.0, b.0))
  }

  predicate Ranked(c: seq<Candidate>) {
    forall i, j :: 0 <= i < j < |c| ==> Before(c[i], c[j])
  }

  function Insert(c: seq<Candidate>, x: Candidate): seq<Candidate> {
    if c == [] then [x] else if Before(x, c[0]) then [x] + c else [c[0]] + Insert(c[1..], x)
  }

  lemma {:induction false} InsertRanked(c: seq<Candidate>, x: Candidate)
    requires Ranked(c) && forall i :: 0 <= i < |c| ==> c[i].0 != x.0
    ensures Ranked(Insert(c, x))
    ensures forall y :: y in Insert(c, x) <==> y in c || y == x
  {
    if c != [] {
      var r := Insert(c, x);
      if Before(x, c[0]) {
        forall j | 0 <= j < |c|
          ensures Before(x, c[j])
        {
          if j > 0 {
            BeforeTransitive(x, c[0], c[j]);
          }
        }
        assert r == [x] + c;
      } else {
        InsertRanked(c[1..], x);
        var rest := Insert(c[1..], x);
        LexTotal(x.0, c[0].0);
        assert r == [c[0]] + rest;
        forall j | 0 <= j < |rest|
          ensures Before(c[0], rest[j])
        {
          assert rest[j] in rest;
        }
        forall y
          ensures y in r <==> y in c || y == x
        {
          assert c == [c[0]] + c[1..];
        }
      }
    }
  }

  lemma BeforeTransitive(a: Candidate, b: Candidate, c: Candidate)
    requires Before(a, b) && Before(b, c)
    ensures Before(a, c)
  {
    if a.1.breakout == c.1.breakout {
      LexTransitive(a.0, b.0, c.0);
    }
  }

  predicate Enters(s: Candidate, held: Dict<string, int>) {
    s.1.entry && Get(held, s.0).None?
  }

  /** sorted() over the entry signals of symbols neither kept nor sold. */
  function Candidates(m: Market, held: Dict<string, int>, n: nat): seq<Candidate>
    requires n <= |m.signals|
  {
    if n == 0 then []
    else if Enters(m.signals[n - 1], held) then Insert(Candidates(m, held, n - 1), m.signals[n - 1])
    else Candidates(m, held, n - 1)
  }

  lemma {:induction false} CandidatesRanked(m: Market, held: Dict<string, int>, n: nat)
    requires n <= |m.signals| && Distinct(m.signals)
    ensures Ranked(Candidates(m, held, n))
    ensures forall y :: y in Candidates(m, held, n) <==> exists i :: 0 <= i < n && m.signals[i] == y && Enters(y, held)
  {
    if n != 0 {
      CandidatesRanked(m, held, n - 1);
      var c, x := Candidates(m, held, n - 1), m.signals[n - 1];
      if Enters(x, held) {
        forall i | 0 <= i < |c|
          ensures c[i].0 != x.0
        {
          assert c[i] in c;
          var k :| 0 <= k < n - 1 && m.signals[k] == c[i];
          DistinctAt(m.signals, k, n - 1);
        }
        InsertRanked(c, x);
      }
      forall y
        ensures y in Candidates(m, held, n) <==> exists i :: 0 <= i < n && m.signals[i] == y && Enters(y, held)
      {
        if i :| 0 <= i < n && m.signals[i] == y && Enters(y, held) {
          assert i == n - 1 || y in c;
        }
        if y in Candidates(m, held, n) {
          assert y in c || m.signals[n - 1] == y;
        }
      }
    }
  }

  /** The candidates of a plan: the symbols with an entry signal that are not held, the strongest breakout first and
      equal ones in dictionary order. */
  lemma StrongestFirst(m: Market, held: Dict<string, int>)
    requires Distinct(m.signals)
    ensures var c := Candidates(m, held, |m.signals|);
      && (forall i, j :: 0 <= i < j < |c| ==>
            && c[i].1.breakout >= c[j].1.breakout
            && (c[i].1.breakout == c[j].1.breakout ==> exists k: nat :: LessAt(c[i].0, c[j].0, k)))
      && forall s, sig :: (s, sig) in c <==> (s, sig) in m.signals && sig.entry && Get(held, s).None?
  {
    hide LessAt, LexLess;
    var c := Candidates(m, held, |m.signals|);
    CandidatesRanked(m, held, |m.signals|);
    forall i, j | 0 <= i < j < |c|
      ensures c[i].1.breakout >= c[j].1.breakout
      ensures c[i].1.breakout == c[j].1.breakout ==> exists k: nat :: LessAt(c[i].0, c[j].0, k)
    {
      assert Before(c[i], c[j]);
      LexMeans(c[i].0, c[j].0);
    }
  }

  // ----- Purchases -----

  /** int(): truncation toward zero. */
  function Trunc(x: real): int {
    if x >= 0.0 then x.Floor else -((-x).Floor)
  }

  function SharesFor(budget: real, px: real): int
    requires px != 0.0
  {
    Trunc(budget / (px * BUY_COST))
  }

  datatype Purchases = Purchases(buys: seq<Trade>, picks: seq<nat>, remaining: real)

  function Considered(m: Market, b: Purchases, cands: seq<Candidate>, n: nat, perName: real, free: int): Purchases
    requires n < |cands|
  {
    var px := Px(m, cands[n].0);
    if |b.buys| >= free || px.None? then b
    else
      var qty := SharesFor(if perName < b.remaining then perName else b.remaining, px.value);
      if qty < 1 then b
      else
        var t := Trade(cands[n].0, qty, px.value);
        Purchases(b.buys + [t], b.picks + [n], b.remaining - Worth(t) * BUY_COST)
  }

  function Buying(m: Market, cands: seq<Candidate>, n: nat, perName: real, free: int, avail: real): Purchases
    requires n <= |cands|
  {
    if n == 0 then Purchases([], [], avail)
    else Considered(m, Buying(m, cands, n - 1, perName, free, avail), cands, n - 1, perName, free)
  }

  /** Signals carry real closes: no price is negative. */
  ghost predicate Priced(m: Market) {
    forall s :: Px(m, s).Some? ==> Px(m, s).value > 0.0
  }

  lemma Affordable(budget: real, px: real)
    requires px > 0.0
    ensures var q := SharesFor(budget, px);
      if q < 1 then budget < px * BUY_COST
      else && Amount(px, q as real) * BUY_COST <= budget < Amount(px, q as real + 1.0) * BUY_COST
           && Amount(px, q as real) > 0.0
  {
    var unit := px * BUY_COST;
    var q := SharesFor(budget, px);
    QuotientBound(budget, unit, q as real);
    QuotientBound(budget, unit, 1.0);
    if q >= 1 {
      StrictProduct(px, q as real);
      assert q as real * unit == Amount(px, q as real) * BUY_COST;
      QuotientBound(budget, unit, q as real + 1.0);
      assert (q as real + 1.0) * unit == Amount(px, q as real + 1.0) * BUY_COST;
    } else {
      assert budget / unit < 1.0;
    }
  }

  /** Purchases follow the ranking, each candidate at most once, and never outnumber the free slots. */
  ghost predicate Listed(m: Market, cands: seq<Candidate>, n: nat, free: int, b: Purchases)
    requires n <= |cands|
  {
    && |b.picks| == |b.buys| <= (if free > 0 then free else 0)
    && (forall i :: 0 <= i < |b.picks| ==> b.picks[i] < n && b.buys[i].symbol == cands[b.picks[i]].0)
    && (forall i, j :: 0 <= i < j < |b.picks| ==> b.picks[i] < b.picks[j])
    && (forall i :: 0 <= i < |b.buys| ==> b.buys[i].qty >= 1 && Px(m, b.buys[i].symbol) == Some(b.buys[i].price))
  }

  /** Each purchase fits its share of the equity, and all of them the money there was; one share more would have broken
      the share of the equity or the money left at that point. */
  ghost predicate Paid(perName: real, avail: real, b: Purchases) {
    && (forall i :: 0 <= i < |b.buys| ==> Worth(b.buys[i]) * BUY_COST <= perName)
    && (forall i :: 0 <= i < |b.buys| ==>
          var more := Amount(b.buys[i].price, b.buys[i].qty as real + 1.0) * BUY_COST;
          perName < more || avail - Spent(b.buys, i) < more)
    && b.remaining == avail - Spent(b.buys, |b.buys|) && 0.0 <= b.remaining <= avail
  }

  /** What holds of the purchases after any number of candidates. */
  ghost predicate Sensible(m: Market, cands: seq<Candidate>, n: nat, perName: real, free: int, avail: real,
                           b: Purchases)
    requires n <= |cands|
  {
    Listed(m, cands, n, free, b) && Paid(perName, avail, b)
  }

  lemma {:induction false} SpentPrefix(a: seq<Trade>, t: Trade, n: nat)
    requires n <= |a|
    ensures Spent(a + [t], n) == Spent(a, n)
  {
    if n != 0 {
      SpentPrefix(a, t, n - 1);
    }
  }

  lemma ConsideredKeepsListed(m: Market, cands: seq<Candidate>, n: nat, perName: real, free: int, b: Purchases)
    requires n < |cands| && Listed(m, cands, n, free, b)
    ensures Listed(m, cands, n + 1, free, Considered(m, b, cands, n, perName, free))
  {
    hide SharesFor, Worth, Px;
  }

  lemma ConsideredKeepsPaid(m: Market, cands: seq<Candidate>, n: nat, perName: real, free: int, avail: real,
                            b: Purchases)
    requires Priced(m) && n < |cands| && Paid(perName, avail, b)
    ensures Paid(perName, avail, Considered(m, b, cands, n, perName, free))
  {
    hide SharesFor, Worth, Px, Priced, Amount;
    var c := Considered(m, b, cands, n, perName, free);
    PricedAt(m, cands[n].0);
    if c != b {
      var t := c.buys[|b.buys|];
      Affordable(if perName < b.remaining then perName else b.remaining, t.price);
      WorthIs(t);
      assert c.buys == b.buys + [t];
      forall i | 0 <= i <= |b.buys|
        ensures Spent(c.buys, i) == Spent(b.buys, i)
      {
        SpentPrefix(b.buys, t, i);
      }
    }
  }

  lemma ConsideredKeeps(m: Market, cands: seq<Candidate>, n: nat, perName: real, free: int, avail: real, b: Purchases)
    requires Priced(m) && n < |cands| && Sensible(m, cands, n, perName, free, avail, b)
    ensures Sensible(m, cands, n + 1, perName, free, avail, Considered(m, b, cands, n, perName, free))
  {
    hide Considered, Listed, Paid;
    ConsideredKeepsListed(m, cands, n, perName, free, b);
    ConsideredKeepsPaid(m, cands, n, perName, free, avail, b);
  }

  lemma PricedAt(m: Market, symbol: string)
    requires Priced(m)
    ensures Px(m, symbol).Some? ==> Px(m, symbol).value > 0.0
  {
  }

  lemma WorthIs(t: Trade)
    ensures Worth(t) == Amount(t.price, t.qty as real)
  {
  }

  /** Spending stays within the money, purchases within the free slots, each within its share of the equity;
      candidates are taken in rank order, each at most once. */
  lemma {:induction false} PurchasesAreSensible(
    m: Market, cands: seq<Candidate>, n: nat, perName: real, free: int, avail: real)
    requires Priced(m) && n <= |cands| && avail >= 0.0
    ensures Sensible(m, cands, n, perName, free, avail, Buying(m, cands, n, perName, free, avail))
  {
    hide Considered, Sensible, Priced;
    if n == 0 {
      NothingBought(m, cands, perName, free, avail);
    } else {
      PurchasesAreSensible(m, cands, n - 1, perName, free, avail);
      ConsideredKeeps(m, cands, n - 1, perName, free, avail, Buying(m, cands, n - 1, perName, free, avail));
    }
  }

  lemma NothingBought(m: Market, cands: seq<Candidate>, perName: real, free: int, avail: real)
    requires avail >= 0.0
    ensures Sensible(m, cands, 0, perName, free, avail, Purchases([], [], avail))
  {
  }

  /** A candidate skipped while a slot was free could not have bought one share. */
  lemma SkippedCannotPay(m: Market, b: Purchases, cands: seq<Candidate>, n: nat, perName: real, free: int)
    requires Priced(m) && n < |cands| && |b.buys| < free && Px(m, cands[n].0).Some?
    requires n !in Considered(m, b, cands, n, perName, free).picks
    ensures Considered(m, b, cands, n, perName, free) == b
    ensures var unit := Px(m, cands[n].0).value * BUY_COST; perName < unit || b.remaining < unit
  {
    hide SharesFor, Worth, Px, Priced;
    PricedAt(m, cands[n].0);
    var budget, px := if perName < b.remaining then perName else b.remaining, Px(m, cands[n].0).value;
    Affordable(budget, px);
  }

  /** While a slot is free, nobody is passed over who could have bought a share. */
  lemma {:induction false} NobodyPassedOver(
    m: Market, cands: seq<Candidate>, n: nat, perName: real, free: int, avail: real, i: nat)
    requires Priced(m) && i < n <= |cands| && avail >= 0.0
    requires var b := Buying(m, cands, n, perName, free, avail); i !in b.picks && |b.buys| < free
    requires Px(m, cands[i].0).Some?
    ensures var b := Buying(m, cands, n, perName, free, avail);
      var unit := Px(m, cands[i].0).value * BUY_COST;
      perName < unit || b.remaining < unit
  {
    hide Considered, Px, Priced;
    var b := Buying(m, cands, n - 1, perName, free, avail);
    SpendsMore(m, cands, n - 1, perName, free, avail);
    if i == n - 1 {
      SkippedCannotPay(m, b, cands, i, perName, free);
    } else {
      NobodyPassedOver(m, cands, n - 1, perName, free, avail, i);
    }
  }

  lemma SpendsMore(m: Market, cands: seq<Candidate>, n: nat, perName: real, free: int, avail: real)
    requires Priced(m) && n < |cands| && avail >= 0.0
    ensures var b, c := Buying(m, cands, n, perName, free, avail), Buying(m, cands, n + 1, perName, free, avail);
      c.remaining <= b.remaining && |b.buys| <= |c.buys| && b.picks <= c.picks
  {
    hide SharesFor, Px, Priced, Worth;
    var b := Buying(m, cands, n, perName, free, avail);
    PricedAt(m, cands[n].0);
    var c := Considered(m, b, cands, n, perName, free);
    if c != b {
      var t := c.buys[|b.buys|];
      Affordable(if perName < b.remaining then perName else b.remaining, t.price);
      WorthIs(t);
    }
  }

  lemma {:induction false} FullStaysFull(
    m: Market, cands: seq<Candidate>, n: nat, k: nat, perName: real, free: int, avail: real)
    requires n <= k <= |cands| && |Buying(m, cands, n, perName, free, avail).buys| >= free
    ensures Buying(m, cands, k, perName, free, avail) == Buying(m, cands, n, perName, free, avail)
    decreases k
  {
    hide SharesFor, Px, Worth;
    if n < k {
      FullStaysFull(m, cands, n, k - 1, perName, free, avail);
    }
  }

  // ----- Sales and what is kept -----

  ghost predicate Apart(trades: seq<Trade>) {
    forall j, k :: 0 <= j < k < |trades| ==> trades[j].symbol != trades[k].symbol
  }

  predicate SoldIn(sells: seq<Trade>, symbol: string) {
    exists k :: 0 <= k < |sells| && sells[k].symbol == symbol
  }

  /** Exactly the holdings that leave are sold, each once and whole, at its price. */
  lemma {:induction false} SoldWhole(m: Market, held: Dict<string, int>, n: nat)
    requires n <= |held| && Distinct(held)
    ensures forall k :: 0 <= k < |Sold(m, held, n)| ==>
      var t := Sold(m, held, n)[k];
      Leaves(m, t.symbol) && Px(m, t.symbol) == Some(t.price) && exists i :: 0 <= i < n && held[i] == (t.symbol, t.qty)
    ensures Apart(Sold(m, held, n))
    ensures forall i :: 0 <= i < n && Leaves(m, held[i].0) ==> SoldIn(Sold(m, held, n), held[i].0)
  {
    hide Leaves, Px;
    if n != 0 {
      SoldWhole(m, held, n - 1);
      var (symbol, qty) := held[n - 1];
      forall i | 0 <= i < n - 1
        ensures held[i].0 != symbol
      {
        DistinctAt(held, i, n - 1);
      }
      if Leaves(m, symbol) {
        SoldMore(Sold(m, held, n - 1), Trade(symbol, qty, Px(m, symbol).value));
      }
    }
  }

  lemma SoldMore(front: seq<Trade>, t: Trade)
    ensures forall s :: SoldIn(front + [t], s) <==> SoldIn(front, s) || s == t.symbol
  {
    forall s
      ensures SoldIn(front + [t], s) <==> SoldIn(front, s) || s == t.symbol
    {
      assert (front + [t])[|front|] == t;
      if SoldIn(front, s) {
        var k :| 0 <= k < |front| && front[k].symbol == s;
        assert (front + [t])[k].symbol == s;
      }
    }
  }

  /** What does not leave is kept as it is. */
  lemma {:induction false} KeptWhole(m: Market, held: Dict<string, int>, n: nat)
    requires n <= |held| && Distinct(held)
    ensures forall i :: 0 <= i < n ==>
      Get(Kept(m, held, n), held[i].0) == if Leaves(m, held[i].0) then None else Some(held[i].1)
    ensures forall s :: Get(Kept(m, held, n), s).Some? ==> exists i :: 0 <= i < n && held[i].0 == s
  {
    hide Leaves, Px;
    if n != 0 {
      KeptWhole(m, held, n - 1);
      forall i | 0 <= i < n - 1
        ensures held[i].0 != held[n - 1].0
      {
        DistinctAt(held, i, n - 1);
      }
    }
  }

  lemma SoldLeaves(m: Market, held: Dict<string, int>, i: nat)
    requires i < |held| && Distinct(held)
    ensures SoldIn(Sold(m, held, |held|), held[i].0) <==> Leaves(m, held[i].0)
  {
    hide Leaves, Px, Distinct, Apart;
    SoldWhole(m, held, |held|);
  }

  /** Sold and kept together are the holdings, so what is neither is not held at all. */
  lemma NeitherMeansUnheld(m: Market, held: Dict<string, int>, symbol: string)
    requires Distinct(held)
    ensures Get(held, symbol).None? <==>
      Get(Kept(m, held, |held|), symbol).None? && !SoldIn(Sold(m, held, |held|), symbol)
  {
    hide Leaves, Px;
    SoldWhole(m, held, |held|);
    KeptWhole(m, held, |held|);
    if Get(held, symbol).Some? {
      var i :| 0 <= i < |held| && held[i] == (symbol, Get(held, symbol).value);
      SoldLeaves(m, held, i);
    }
  }

  function Targets(cands: seq<Candidate>): seq<string> {
    seq(|cands|, i requires 0 <= i < |cands| => cands[i].0)
  }

  /** The plan as a whole. */
  function PlanOf(m: Market, held: Dict<string, int>, cash: real, maxPositions: int): Plan {
    var sells, keep := Sold(m, held, |held|), Kept(m, held, |held|);
    var avail := cash + Raised(sells, |sells|);
    var cands := Candidates(m, held, |m.signals|);
    var free := maxPositions - |keep|;
    Plan(sells, Buying(m, cands, |cands|, PerName(m, keep, avail, maxPositions), free, avail).buys, keep,
         Targets(cands))
  }

  method PlanTrades(m: Market, held: Dict<string, int>, cash: real, maxPositions: int) returns (plan: Plan)
    requires Distinct(held)
    ensures plan == PlanOf(m, held, cash, maxPositions)
  {
    hide Leaves, Px, PerName, Considered, Worth;
    var sells: seq<Trade>, keep: Dict<string, int> := [], [];
    for i := 0 to |held|
      invariant sells == Sold(m, held, i) && keep == Kept(m, held, i)
    {
      var (symbol, qty) := held[i];
      if Leaves(m, symbol) {
        sells := sells + [Trade(symbol, qty, Px(m, symbol).value)];
      } else {
        keep := Set(keep, symbol, qty);
      }
    }
    var avail := cash + Raised(sells, |sells|);
    var perName := PerName(m, keep, avail, maxPositions);
    var free := maxPositions - |keep|;
    var cands: seq<Candidate> := [];
    for i := 0 to |m.signals|
      invariant cands == Candidates(m, held, i)
    {
      var (symbol, sig) := m.signals[i];
      NeitherMeansUnheld(m, held, symbol);
      if sig.entry && Get(keep, symbol).None? && !SoldIn(sells, symbol) {
        cands := Insert(cands, (symbol, sig));
      }
    }
    var b := Purchases([], [], avail);
    for n := 0 to |cands|
      invariant b == Buying(m, cands, n, perName, free, avail)
    {
      if |b.buys| >= free {
        FullStaysFull(m, cands, n, |cands|, perName, free, avail);
        break;
      }
      b := Considered(m, b, cands, n, perName, free);
    }
    plan := Plan(sells, b.buys, keep, Targets(cands));
  }

  /** Purchases with fees fit cash plus sale proceeds. */
  lemma PlanIsAffordable(m: Market, held: Dict<string, int>, cash: real, maxPositions: int)
    requires Priced(m) && cash >= 0.0 && forall i :: 0 <= i < |held| ==> held[i].1 >= 0
    ensures var p := PlanOf(m, held, cash, maxPositions);
      Spent(p.buys, |p.buys|) <= cash + Raised(p.sells, |p.sells|)
  {
    hide Leaves, Px, PerName, Considered, Worth, Priced, Before, Enters;
    var p := PlanOf(m, held, cash, maxPositions);
    RaisedIsPositive(m, held, |held|);
    var avail, cands := cash + Raised(p.sells, |p.sells|), Candidates(m, held, |m.signals|);
    PurchasesAreSensible(m, cands, |cands|, PerName(m, p.keep, avail, maxPositions), maxPositions - |p.keep|, avail);
  }

  /** Disjoint: everything sold or kept was held, nothing bought was. Within the slots: kept plus bought never exceeds
      the larger of max_positions and what is kept. Within the money: purchases with fees fit cash plus sale
      proceeds. */
  lemma PlanIsSound(m: Market, held: Dict<string, int>, cash: real, maxPositions: int)
    requires Distinct(held) && Distinct(m.signals) && Priced(m) && cash >= 0.0
    requires forall i :: 0 <= i < |held| ==> held[i].1 >= 0
    ensures var p := PlanOf(m, held, cash, maxPositions);
      && (forall s :: Get(held, s).Some? <==> (SoldIn(p.sells, s) || Get(p.keep, s).Some?))
      && (forall s :: !(SoldIn(p.sells, s) && Get(p.keep, s).Some?))
      && (forall k :: 0 <= k < |p.buys| ==> Get(held, p.buys[k].symbol).None? && p.buys[k].symbol in p.targets)
      && (forall j, k :: 0 <= j < k < |p.buys| ==> p.buys[j].symbol != p.buys[k].symbol)
      && |p.keep| + |p.buys| <= (if maxPositions > |p.keep| then maxPositions else |p.keep|)
      && Spent(p.buys, |p.buys|) <= cash + Raised(p.sells, |p.sells|)
  {
    hide Leaves, Px, PerName, Considered, Worth, Before, Distinct, Priced, SoldIn;
    var p := PlanOf(m, held, cash, maxPositions);
    HoldingsSplit(m, held);
    PlanIsAffordable(m, held, cash, maxPositions);
    RaisedIsPositive(m, held, |held|);
    var avail, cands := cash + Raised(p.sells, |p.sells|), Candidates(m, held, |m.signals|);
    var perName, free := PerName(m, p.keep, avail, maxPositions), maxPositions - |p.keep|;
    CandidatesRanked(m, held, |m.signals|);
    PurchasesAreSensible(m, cands, |cands|, perName, free, avail);
    var b := Buying(m, cands, |cands|, perName, free, avail);
    forall k | 0 <= k < |p.buys|
      ensures Get(held, p.buys[k].symbol).None? && p.buys[k].symbol in p.targets
    {
      assert cands[b.picks[k]] in cands;
      assert p.targets[b.picks[k]] == p.buys[k].symbol;
    }
    forall j, k | 0 <= j < k < |p.buys|
      ensures p.buys[j].symbol != p.buys[k].symbol
    {
      RankedApart(m, held, cands, b.picks[j], b.picks[k]);
    }
  }

  /** Sold and kept are what was held, and never the same. */
  lemma HoldingsSplit(m: Market, held: Dict<string, int>)
    requires Distinct(held)
    ensures var sells, keep := Sold(m, held, |held|), Kept(m, held, |held|);
      && (forall s :: Get(held, s).Some? <==> (SoldIn(sells, s) || Get(keep, s).Some?))
      && (forall s :: !(SoldIn(sells, s) && Get(keep, s).Some?))
  {
    hide Leaves, Px, Distinct;
    var sells, keep := Sold(m, held, |held|), Kept(m, held, |held|);
    forall s
      ensures Get(held, s).Some? <==> (SoldIn(sells, s) || Get(keep, s).Some?)
      ensures !(SoldIn(sells, s) && Get(keep, s).Some?)
    {
      NeitherMeansUnheld(m, held, s);
      NotBoth(m, held, s);
    }
  }

  lemma NotBoth(m: Market, held: Dict<string, int>, s: string)
    requires Distinct(held)
    ensures !(SoldIn(Sold(m, held, |held|), s) && Get(Kept(m, held, |held|), s).Some?)
  {
    hide Leaves, Px;
    KeptWhole(m, held, |held|);
    if Get(Kept(m, held, |held|), s).Some? {
      var i :| 0 <= i < |held| && held[i].0 == s;
      SoldLeaves(m, held, i);
    }
  }

  /** Two candidates never share a symbol. */
  lemma RankedApart(m: Market, held: Dict<string, int>, cands: seq<Candidate>, i: nat, j: nat)
    requires Distinct(m.signals) && cands == Candidates(m, held, |m.signals|) && i < j < |cands|
    ensures cands[i].0 != cands[j].0
  {
    CandidatesRanked(m, held, |m.signals|);
    assert cands[i] in cands && cands[j] in cands;
    var a :| 0 <= a < |m.signals| && m.signals[a] == cands[i];
    var b :| 0 <= b < |m.signals| && m.signals[b] == cands[j];
    GetAt(m.signals, a);
    GetAt(m.signals, b);
    assert Before(cands[i], cands[j]);
    LexTotal(cands[i].0, cands[i].0);
  }

  lemma {:induction false} RaisedIsPositive(m: Market, held: Dict<string, int>, n: nat)
    requires n <= |held| && Priced(m) && forall i :: 0 <= i < |held| ==> held[i].1 >= 0
    ensures Raised(Sold(m, held, n), |Sold(m, held, n)|) >= 0.0
  {
    hide Leaves, Px;
    if n != 0 {
      RaisedIsPositive(m, held, n - 1);
      var (symbol, qty) := held[n - 1];
      if Leaves(m, symbol) {
        var t := Trade(symbol, qty, Px(m, symbol).value);
        ProductSign(t.price, qty as real);
        RaisedPrefix(Sold(m, held, n - 1), t, |Sold(m, held, n - 1)|);
      }
    }
  }

  lemma {:induction false} RaisedPrefix(a: seq<Trade>, t: Trade, n: nat)
    requires n <= |a|
    ensures Raised(a + [t], n) == Raised(a, n)
  {
    if n != 0 {
      RaisedPrefix(a, t, n - 1);
    }
  }

  /** Its signal lives without an exit, and its last bar is at most two weeks old. */
  predicate Alive(m: Market, symbol: string) {
    && Get(m.signals, symbol).Some? && !Get(m.signals, symbol).value.exit
    && symbol in m.lastBar && m.today <= m.lastBar[symbol] + 14
  }

  /** No price to sell it at: neither a positive daily close nor a weekly one. */
  predicate Unpriced(m: Market, symbol: string) {
    && (symbol !in m.closes || m.closes[symbol] <= 0.0)
    && match Get(m.signals, symbol) case Some(sig) => sig.close.None? || sig.close.value == 0.0 case None => true
  }

  lemma LeavesIff(m: Market, symbol: string)
    ensures Leaves(m, symbol) <==> !Alive(m, symbol) && !Unpriced(m, symbol)
  {
    hide Get, Px;
  }

  /** A holding stays in the portfolio as it is exactly while it is alive or cannot be priced. */
  lemma StaysIff(m: Market, held: Dict<string, int>, cash: real, maxPositions: int, i: nat)
    requires Distinct(held) && i < |held|
    ensures Get(PlanOf(m, held, cash, maxPositions).keep, held[i].0)
         == if Alive(m, held[i].0) || Unpriced(m, held[i].0) then Some(held[i].1) else None
  {
    hide Px, PerName, Buying, Candidates, Sold, Kept, Get, Leaves, Alive, Unpriced;
    KeptWhole(m, held, |held|);
    LeavesIff(m, held[i].0);
  }

  /** The budget of one name, times the slots, is the money and the kept shares, each counted at its daily close. */
  lemma BudgetOfKept(m: Market, keep: Dict<string, int>, s: string, q: int, avail: real, maxPositions: int)
    ensures PerName(m, keep, avail, maxPositions) * (if maxPositions > 1 then maxPositions else 1) as real
            == avail + Sum(keep, KeptWorth(m))
    ensures Sum([], KeptWorth(m)) == 0.0
    ensures Sum(keep + [(s, q)], KeptWorth(m))
            == Sum(keep, KeptWorth(m)) + if s in m.closes then m.closes[s] * q as real else 0.0
  {
    SumAppend(keep, s, q, KeptWorth(m));
    KeptWorthIs(m, s, q);
  }

  lemma KeptWorthIs(m: Market, s: string, q: int)
    ensures KeptWorth(m)(s, q) == if s in m.closes then m.closes[s] * q as real else 0.0
  {
    assert KeptWorth(m)(s, q) == if s in m.closes then Amount(m.closes[s], q as real) else 0.0;
  }

  // ----- Executing the plan -----

  function Fill(db: Tables, account: string, side: Side, trades: seq<Trade>, n: nat, serial: nat): Tables
    requires n <= |trades|
  {
    if n == 0 then db
    else Simulated(Fill(db, account, side, trades, n - 1, serial), account, side, trades[n - 1], serial + n).0
  }

  /** The n-th order of the batch goes through. */
  predicate FillsAt(db: Tables, account: string, side: Side, trades: seq<Trade>, n: nat, serial: nat)
    requires n < |trades|
  {
    Simulated(Fill(db, account, side, trades, n, serial), account, side, trades[n], serial + n + 1).1.Applied?
  }

  ghost predicate AllFill(db: Tables, account: string, side: Side, trades: seq<Trade>, n: nat, serial: nat)
    requires n <= |trades|
  {
    forall k :: 0 <= k < n ==> FillsAt(db, account, side, trades, k, serial)
  }

  /** Sales first, then purchases, each in its own transaction. */
  method Execute(db: Database, account: string, plan: Plan, serial: nat) returns (sold: seq<bool>, bought: seq<bool>)
    modifies db
    ensures var mid := Fill(old(db.Contents()), account, SELL, plan.sells, |plan.sells|, serial);
      db.Contents() == Fill(mid, account, BUY, plan.buys, |plan.buys|, serial + |plan.sells|)
    ensures |sold| == |plan.sells| && |bought| == |plan.buys|
    ensures forall k :: 0 <= k < |sold| ==> sold[k] == FillsAt(old(db.Contents()), account, SELL, plan.sells, k, serial)
    ensures var mid := Fill(old(db.Contents()), account, SELL, plan.sells, |plan.sells|, serial);
      var base := serial + |plan.sells|;
      forall k :: 0 <= k < |bought| ==> bought[k] == FillsAt(mid, account, BUY, plan.buys, k, base)
  {
    hide Simulated;
    sold, bought := [], [];
    for k := 0 to |plan.sells|
      invariant db.Contents() == Fill(old(db.Contents()), account, SELL, plan.sells, k, serial) && |sold| == k
      invariant forall j :: 0 <= j < k ==> sold[j] == FillsAt(old(db.Contents()), account, SELL, plan.sells, j, serial)
    {
      var outcome := SimulateFill(db, account, SELL, plan.sells[k], serial + k + 1);
      sold := sold + [outcome.Applied?];
    }
    ghost var mid := db.Contents();
    var base := serial + |plan.sells|;
    for k := 0 to |plan.buys|
      invariant db.Contents() == Fill(mid, account, BUY, plan.buys, k, base) && |bought| == k
      invariant forall j :: 0 <= j < k ==> bought[j] == FillsAt(mid, account, BUY, plan.buys, j, base)
    {
      var outcome := SimulateFill(db, account, BUY, plan.buys[k], base + k + 1);
      bought := bought + [outcome.Applied?];
    }
  }

  ghost predicate AllWhole(trades: seq<Trade>) {
    forall k :: 0 <= k < |trades| ==> Whole(trades[k])
  }

  lemma {:induction false} SalesFill(db: Tables, account: string, sells: seq<Trade>, n: nat, serial: nat)
    requires n <= |sells| && AllWhole(sells) && Apart(sells) && FreshFrom(db, serial + 1) && account in db.accounts
    requires db.accounts[account] >= 0.0 && OnGrid(db.accounts[account])
    requires forall k :: 0 <= k < |sells| ==> sells[k].qty as real == Held(db, account, sells[k].symbol)
    ensures var after := Fill(db, account, SELL, sells, n, serial);
      && FreshFrom(after, serial + n + 1) && account in after.accounts && OnGrid(after.accounts[account])
      && after.accounts[account] == db.accounts[account] + Raised(sells, n) >= 0.0
      && (forall s :: Held(after, account, s) == if SoldIn(sells[..n], s) then 0.0 else Held(db, account, s))
    ensures AllFill(db, account, SELL, sells, n, serial)
  {
    hide Simulated, Worth, OnGrid, Held, FreshFrom, Whole, SoldIn;
    if n == 0 {
      NoneSold();
    } else {
      AmongFirst(sells, n);
      SalesFill(db, account, sells, n - 1, serial);
      var before, t := Fill(db, account, SELL, sells, n - 1, serial), sells[n - 1];
      SaleFills(before, account, t, serial + n);
      WholeWorth(t);
      forall s {
        SoldNext(sells, n, s);
      }
    }
  }

  lemma NoneSold()
    ensures forall s :: !SoldIn([], s)
  {
  }

  lemma SoldNext(sells: seq<Trade>, n: nat, s: string)
    requires 0 < n <= |sells|
    ensures SoldIn(sells[..n], s) <==> SoldIn(sells[..n - 1], s) || s == sells[n - 1].symbol
  {
    if SoldIn(sells[..n - 1], s) {
      var k :| 0 <= k < n - 1 && sells[..n - 1][k].symbol == s;
      assert sells[..n][k].symbol == s;
    }
    assert sells[..n][n - 1] == sells[n - 1];
  }

  lemma AmongFirst(sells: seq<Trade>, n: nat)
    requires 0 < n <= |sells| && Apart(sells)
    ensures !SoldIn(sells[..n - 1], sells[n - 1].symbol)
  {
  }

  lemma {:induction false} PurchasesFill(db: Tables, account: string, buys: seq<Trade>, n: nat, serial: nat)
    requires n <= |buys| && AllWhole(buys) && FreshFrom(db, serial + 1) && account in db.accounts
    requires OnGrid(db.accounts[account]) && Spent(buys, |buys|) <= db.accounts[account]
    requires forall s :: Held(db, account, s) >= 0.0
    ensures var after := Fill(db, account, BUY, buys, n, serial);
      && FreshFrom(after, serial + n + 1) && account in after.accounts && OnGrid(after.accounts[account])
      && after.accounts[account] == db.accounts[account] - Spent(buys, n)
      && forall s :: Held(after, account, s) >= 0.0
    ensures AllFill(db, account, BUY, buys, n, serial)
  {
    hide Simulated, Worth, OnGrid, Held, FreshFrom;
    if n != 0 {
      PurchasesFill(db, account, buys, n - 1, serial);
      SpentGrows(buys, n);
      WholeWorth(buys[n - 1]);
      PurchaseFills(Fill(db, account, BUY, buys, n - 1, serial), account, buys[n - 1], serial + n);
    }
  }

  lemma {:induction false} SpentGrows(buys: seq<Trade>, n: nat)
    requires n <= |buys| && AllWhole(buys)
    ensures Spent(buys, n) <= Spent(buys, |buys|)
    decreases |buys| - n
  {
    hide Worth;
    if n < |buys| {
      WholeWorth(buys[n]);
      SpentGrows(buys, n + 1);
    }
  }

  /** The planner saw the ledger: its cash, and every holding as a whole number of shares. */
  ghost predicate Seen(db: Tables, account: string, held: Dict<string, int>, cash: real) {
    && account in db.accounts && db.accounts[account] == cash
    && (forall s :: Held(db, account, s) == match Get(held, s) case Some(q) => q as real case None => 0.0)
  }

  /** Prices are whole won. */
  ghost predicate WholeWon(m: Market) {
    forall s :: Px(m, s).Some? ==> Px(m, s).value > 0.0 && Px(m, s).value.Floor as real == Px(m, s).value
  }

  lemma SellsAreWhole(m: Market, held: Dict<string, int>)
    requires Distinct(held) && WholeWon(m) && forall i :: 0 <= i < |held| ==> held[i].1 > 0
    ensures var sells := Sold(m, held, |held|);
      && AllWhole(sells) && Apart(sells)
      && forall k :: 0 <= k < |sells| ==> Get(held, sells[k].symbol) == Some(sells[k].qty)
  {
    hide Leaves, Px, Whole, WholeWon;
    var sells := Sold(m, held, |held|);
    SoldWhole(m, held, |held|);
    forall k | 0 <= k < |sells|
      ensures Whole(sells[k]) && Get(held, sells[k].symbol) == Some(sells[k].qty)
    {
      var i :| 0 <= i < |held| && held[i] == (sells[k].symbol, sells[k].qty);
      GetAt(held, i);
      WholeAt(m, sells[k]);
    }
  }

  lemma BuysAreWhole(m: Market, cands: seq<Candidate>, n: nat, perName: real, free: int, avail: real)
    requires WholeWon(m) && n <= |cands| && avail >= 0.0
    ensures AllWhole(Buying(m, cands, n, perName, free, avail).buys)
  {
    hide Px, Considered, Worth, Whole, WholeWon, Priced;
    PricedWhole(m);
    PurchasesAreSensible(m, cands, n, perName, free, avail);
    var buys := Buying(m, cands, n, perName, free, avail).buys;
    forall k | 0 <= k < |buys|
      ensures Whole(buys[k])
    {
      WholeAt(m, buys[k]);
    }
  }

  lemma PlanIsWhole(m: Market, held: Dict<string, int>, cash: real, maxPositions: int)
    requires Distinct(held) && WholeWon(m) && cash >= 0.0 && forall i :: 0 <= i < |held| ==> held[i].1 > 0
    ensures var p := PlanOf(m, held, cash, maxPositions);
      && AllWhole(p.sells) && AllWhole(p.buys) && Apart(p.sells)
      && forall k :: 0 <= k < |p.sells| ==> Get(held, p.sells[k].symbol) == Some(p.sells[k].qty)
  {
    hide Leaves, Px, PerName, Considered, Worth, AllWhole, Apart, WholeWon, Before, Enters;
    var p := PlanOf(m, held, cash, maxPositions);
    SellsAreWhole(m, held);
    PricedWhole(m);
    RaisedIsPositive(m, held, |held|);
    var avail, cands := cash + Raised(p.sells, |p.sells|), Candidates(m, held, |m.signals|);
    BuysAreWhole(m, cands, |cands|, PerName(m, p.keep, avail, maxPositions), maxPositions - |p.keep|, avail);
  }

  lemma PricedWhole(m: Market)
    requires WholeWon(m)
    ensures Priced(m)
  {
  }

  lemma WholeAt(m: Market, t: Trade)
    requires WholeWon(m) && Px(m, t.symbol) == Some(t.price) && t.qty > 0
    ensures Whole(t)
  {
  }

  lemma SeenHoldings(db: Tables, account: string, held: Dict<string, int>, cash: real)
    requires Seen(db, account, held, cash) && forall i :: 0 <= i < |held| ==> held[i].1 > 0
    ensures forall s :: Held(db, account, s) >= 0.0
  {
    forall s
      ensures Held(db, account, s) >= 0.0
    {
      if Get(held, s).Some? {
        var i :| 0 <= i < |held| && held[i] == (s, Get(held, s).value);
      }
    }
  }

  /** Sales then purchases: every order is applied, and the cash left is exactly what the planner had left. */
  ghost predicate GoesThrough(db: Tables, account: string, p: Plan, cash: real, serial: nat) {
    var sold := Fill(db, account, SELL, p.sells, |p.sells|, serial);
    var done := Fill(sold, account, BUY, p.buys, |p.buys|, serial + |p.sells|);
    && AllFill(db, account, SELL, p.sells, |p.sells|, serial)
    && AllFill(sold, account, BUY, p.buys, |p.buys|, serial + |p.sells|)
    && account in done.accounts
    && done.accounts[account] == cash + Raised(p.sells, |p.sells|) - Spent(p.buys, |p.buys|) >= 0.0
  }

  /** Such a plan goes through order by order. */
  lemma WholePlanFills(db: Tables, account: string, p: Plan, held: Dict<string, int>, cash: real, serial: nat)
    requires AllWhole(p.sells) && AllWhole(p.buys) && Apart(p.sells)
    requires forall k :: 0 <= k < |p.sells| ==> Get(held, p.sells[k].symbol) == Some(p.sells[k].qty)
    requires Spent(p.buys, |p.buys|) <= cash + Raised(p.sells, |p.sells|)
    requires Seen(db, account, held, cash) && cash >= 0.0 && OnGrid(cash) && FreshFrom(db, serial + 1)
    requires forall s :: Held(db, account, s) >= 0.0
    ensures GoesThrough(db, account, p, cash, serial)
  {
    hide AllFill, Worth, OnGrid, FreshFrom, AllWhole, Apart, Simulated, SoldIn, Held;
    SalesFill(db, account, p.sells, |p.sells|, serial);
    var sold := Fill(db, account, SELL, p.sells, |p.sells|, serial);
    PurchasesFill(sold, account, p.buys, |p.buys|, serial + |p.sells|);
  }

  /** With whole-won prices every planned order is applied, and the cash left is the planner's to the last tick. */
  lemma EveryPlannedOrderApplies(db: Tables, account: string, m: Market, held: Dict<string, int>, cash: real,
                                 maxPositions: int, serial: nat)
    requires Distinct(held) && Distinct(m.signals) && WholeWon(m) && forall i :: 0 <= i < |held| ==> held[i].1 > 0
    requires Seen(db, account, held, cash) && cash >= 0.0 && OnGrid(cash) && FreshFrom(db, serial + 1)
    ensures GoesThrough(db, account, PlanOf(m, held, cash, maxPositions), cash, serial)
  {
    hide PlanOf, AllFill, Worth, OnGrid, Px, FreshFrom, AllWhole, Apart, WholeWon, Simulated, Seen, Held, Priced,
         GoesThrough;
    PricedWhole(m);
    PlanIsAffordable(m, held, cash, maxPositions);
    PlanIsWhole(m, held, cash, maxPositions);
    SeenHoldings(db, account, held, cash);
    WholePlanFills(db, account, PlanOf(m, held, cash, maxPositions), held, cash, serial);
  }
}
