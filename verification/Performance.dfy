/** Realised profit by matching sales against purchase lots first in, first out, and the cache in front of it.
    Quantities are counted in units of 1e-12, the scale of the quantity column, so "more than 1e-18" is "not zero". */
module Performance {
  import opened Money
  import opened Dict

  datatype Row = Row(symbol: string, buy: bool, price: real, qty: nat, fee: real)

  datatype Lot = Lot(units: nat, unitCost: real)

  function Size(units: nat): real { units as real * 0.000000000001 }

  lemma SizeSum(a: nat, b: nat)
    ensures Size(a + b) == Size(a) + Size(b)
  {
  }

  /** A purchase of nothing divides by zero in the source; the executions table never holds one. */
  predicate Stored(row: Row) {
    row.buy ==> row.qty > 0
  }

  predicate AllStored(rows: seq<Row>) {
    forall i :: 0 <= i < |rows| ==> Stored(rows[i])
  }

  predicate Filled(lots: seq<Lot>) {
    forall i :: 0 <= i < |lots| ==> lots[i].units > 0
  }

  function Gross(row: Row): real { Amount(row.price, Size(row.qty)) }

  /** A purchase lot carries its fee in the unit cost. */
  function Bought(row: Row): Lot
    requires row.qty > 0
  {
    Lot(row.qty, (Gross(row) + row.fee) / Size(row.qty))
  }

  function CostOf(lot: Lot): real { Amount(lot.unitCost, Size(lot.units)) }

  function Units(lots: seq<Lot>): nat {
    if lots == [] then 0 else lots[0].units + Units(lots[1..])
  }

  function Cost(lots: seq<Lot>): real {
    if lots == [] then 0.0 else CostOf(lots[0]) + Cost(lots[1..])
  }

  function Least(a: nat, b: nat): nat { if a < b then a else b }

  // ----- What first in, first out means: cumulative slices of the purchases -----

  /** Cost of the first q units bought. */
  function CostUpTo(buys: seq<Lot>, q: nat): real {
    if buys == [] then 0.0
    else if q <= buys[0].units then Amount(buys[0].unitCost, Size(q))
    else CostOf(buys[0]) + CostUpTo(buys[1..], q - buys[0].units)
  }

  /** What is left of the purchases once the first q units are gone. */
  function Rest(buys: seq<Lot>, q: nat): seq<Lot> {
    if buys == [] then []
    else if q < buys[0].units then [Lot(buys[0].units - q, buys[0].unitCost)] + buys[1..]
    else Rest(buys[1..], q - buys[0].units)
  }

  lemma {:induction false} RestIsFilled(buys: seq<Lot>, q: nat)
    requires Filled(buys)
    ensures Filled(Rest(buys, q))
    ensures Units(Rest(buys, q)) == if q < Units(buys) then Units(buys) - q else 0
  {
    if buys != [] {
      if q < buys[0].units {
        assert Rest(buys, q)[1..] == buys[1..];
      } else {
        RestIsFilled(buys[1..], q - buys[0].units);
      }
    }
  }

  lemma {:induction false} RestOfRest(buys: seq<Lot>, p: nat, q: nat)
    requires Filled(buys)
    ensures Rest(Rest(buys, p), q) == Rest(buys, p + q)
  {
    if buys != [] {
      if p < buys[0].units {
        var rest := Rest(buys, p);
        assert rest[1..] == buys[1..];
      } else {
        RestOfRest(buys[1..], p - buys[0].units, q);
      }
    }
  }

  /** Part of one lot. */
  lemma PartOfLot(lot: Lot, p: nat, q: nat)
    requires p + q <= lot.units
    ensures Amount(lot.unitCost, Size(p)) + Amount(lot.unitCost, Size(q)) == Amount(lot.unitCost, Size(p + q))
  {
    SizeSum(p, q);
    Distribute(lot.unitCost, Size(p), Size(q));
  }

  /** Consuming q more units after p costs the slice between p and p + q. */
  lemma {:induction false} SliceCost(buys: seq<Lot>, p: nat, q: nat)
    requires Filled(buys)
    ensures CostUpTo(Rest(buys, p), q) == CostUpTo(buys, p + q) - CostUpTo(buys, p)
  {
    hide Amount, Size;
    if buys != [] {
      var lot := buys[0];
      if p < lot.units {
        var rest := Rest(buys, p);
        assert rest[1..] == buys[1..] && rest[0] == Lot(lot.units - p, lot.unitCost);
        if p + q <= lot.units {
          PartOfLot(lot, p, q);
        } else {
          PartOfLot(lot, p, lot.units - p);
          assert q - (lot.units - p) == p + q - lot.units;
        }
      } else {
        SliceCost(buys[1..], p - lot.units, q);
        if p == lot.units {
          NothingCosts(buys[1..]);
        }
      }
    }
  }

  lemma NothingCosts(buys: seq<Lot>)
    ensures CostUpTo(buys, 0) == 0.0
  {
    if buys != [] {
      Distribute(buys[0].unitCost, 0.0, 0.0);
      assert Size(0) == 0.0;
    }
  }

  /** What is left costs what the consumed part did not. */
  lemma {:induction false} RestCost(buys: seq<Lot>, q: nat)
    requires Filled(buys)
    ensures Cost(Rest(buys, q)) == Cost(buys) - CostUpTo(buys, q)
  {
    hide Amount, Size;
    if buys != [] {
      var lot := buys[0];
      if q < lot.units {
        assert Rest(buys, q)[1..] == buys[1..];
        PartOfLot(lot, q, lot.units - q);
      } else {
        RestCost(buys[1..], q - lot.units);
        if q == lot.units {
          NothingCosts(buys[1..]);
        }
      }
    }
  }

  /** Later purchases do not move an earlier slice. */
  lemma {:induction false} LaterPurchase(buys: seq<Lot>, lot: Lot, q: nat)
    requires q <= Units(buys)
    ensures CostUpTo(buys + [lot], q) == CostUpTo(buys, q)
    ensures Filled(buys + [lot]) ==> Rest(buys + [lot], q) == Rest(buys, q) + [lot]
    ensures Units(buys + [lot]) == Units(buys) + lot.units
    ensures Cost(buys + [lot]) == Cost(buys) + CostOf(lot)
  {
    hide Amount, Size;
    if buys == [] {
      NothingCosts([lot]);
    } else {
      assert (buys + [lot])[1..] == buys[1..] + [lot];
      if q < buys[0].units {
        LaterPurchase(buys[1..], lot, 0);
      } else {
        LaterPurchase(buys[1..], lot, q - buys[0].units);
      }
    }
  }

  /** Taking part or all of the front lot. */
  lemma TakeFront(lots: seq<Lot>, gone: nat, take: nat)
    requires Filled(lots) && Rest(lots, gone) != [] && take <= Rest(lots, gone)[0].units
    ensures var rest := Rest(lots, gone); var lot := rest[0];
      && Rest(lots, gone + take)
         == (if lot.units == take then rest[1..] else [Lot(lot.units - take, lot.unitCost)] + rest[1..])
      && CostUpTo(lots, gone + take) == CostUpTo(lots, gone) + Amount(lot.unitCost, Size(take))
  {
    hide Amount, Size;
    var rest := Rest(lots, gone);
    RestOfRest(lots, gone, take);
    SliceCost(lots, gone, take);
    RestIsFilled(lots, gone);
    RestOfNothing(rest[1..]);
  }

  /** The inner loop: eats the queue from the front and adds up what it cost. */
  method Consume(lots: seq<Lot>, qty: nat) returns (rest: seq<Lot>, cost: real)
    requires Filled(lots)
    ensures rest == Rest(lots, qty) && cost == CostUpTo(lots, qty)
  {
    hide Amount, Size, Filled;
    var remaining: nat := qty;
    rest, cost := lots, 0.0;
    NothingCosts(lots);
    RestOfNothing(lots);
    while remaining > 0 && rest != []
      invariant remaining <= qty
      invariant rest == Rest(lots, qty - remaining) && cost == CostUpTo(lots, qty - remaining)
      decreases remaining
    {
      var lot := rest[0];
      var take := Least(remaining, lot.units);
      FrontHolds(lots, qty - remaining);
      TakeFront(lots, qty - remaining, take);
      cost := cost + Amount(lot.unitCost, Size(take));
      remaining := remaining - take;
      rest := if lot.units - take == 0 then rest[1..] else [Lot(lot.units - take, lot.unitCost)] + rest[1..];
    }
    RestOfRest(lots, qty - remaining, remaining);
    SliceCost(lots, qty - remaining, remaining);
  }

  lemma FrontHolds(lots: seq<Lot>, gone: nat)
    requires Filled(lots) && Rest(lots, gone) != []
    ensures Rest(lots, gone)[0].units > 0
  {
    RestIsFilled(lots, gone);
  }

  lemma RestOfNothing(lots: seq<Lot>)
    requires Filled(lots)
    ensures Rest(lots, 0) == lots
  {
  }

  // ----- The route's loop -----

  datatype Books = Books(lots: Dict<string, seq<Lot>>, realized: real, fees: real,
                         wins: nat, losses: nat, buys: nat, sells: nat)

  const NO_BOOKS := Books([], 0.0, 0.0, 0, 0, 0, 0)

  function QueueOf(b: Books, symbol: string): seq<Lot> {
    match Get(b.lots, symbol) case None => [] case Some(queue) => queue
  }

  function NetProceeds(row: Row): real { Gross(row) - row.fee }

  function Entered(b: Books, row: Row): Books
    requires Stored(row)
  {
    var queue := QueueOf(b, row.symbol);
    var c := b.(fees := b.fees + row.fee);
    if row.buy then c.(lots := Set(b.lots, row.symbol, queue + [Bought(row)]), buys := b.buys + 1)
    else
      var pnl := NetProceeds(row) - CostUpTo(queue, row.qty);
      c.(lots := Set(b.lots, row.symbol, Rest(queue, row.qty)), realized := b.realized + pnl, sells := b.sells + 1,
         wins := if pnl > 0.0 then b.wins + 1 else b.wins, losses := if pnl > 0.0 then b.losses else b.losses + 1)
  }

  function After(rows: seq<Row>, k: nat): Books
    requires k <= |rows| && AllStored(rows)
  {
    if k == 0 then NO_BOOKS else Entered(After(rows, k - 1), rows[k - 1])
  }

  datatype Payload = Payload(
    realizedPnl: real, totalFees: real, buys: nat, sells: nat,
    wins: nat, winRate: Option<real>)

  function WinRate(wins: nat, losses: nat): Option<real> {
    if wins + losses == 0 then None else Some(wins as real / (wins + losses) as real)
  }

  function Report(rows: seq<Row>): Payload
    requires AllStored(rows)
  {
    var b := After(rows, |rows|);
    Payload(b.realized, b.fees, b.buys, b.sells, b.wins, WinRate(b.wins, b.losses))
  }

  // ----- The queue against the slices -----

  function BuysOf(rows: seq<Row>, k: nat, symbol: string): seq<Lot>
    requires k <= |rows| && AllStored(rows)
  {
    if k == 0 then []
    else
      var row, front := rows[k - 1], BuysOf(rows, k - 1, symbol);
      if row.symbol == symbol && row.buy then front + [Bought(row)] else front
  }

  /** Units of the symbol's purchases that sales have consumed: a sale of more than was left consumes what was left. */
  function Matched(rows: seq<Row>, k: nat, symbol: string): nat
    requires k <= |rows| && AllStored(rows)
  {
    if k == 0 then 0
    else
      var row, before := rows[k - 1], Matched(rows, k - 1, symbol);
      if row.symbol == symbol && !row.buy then Least(before + row.qty, Units(BuysOf(rows, k - 1, symbol))) else before
  }

  lemma {:induction false} BuysAreFilled(rows: seq<Row>, k: nat, symbol: string)
    requires k <= |rows| && AllStored(rows)
    ensures Filled(BuysOf(rows, k, symbol)) && Matched(rows, k, symbol) <= Units(BuysOf(rows, k, symbol))
  {
    if k != 0 {
      BuysAreFilled(rows, k - 1, symbol);
      if rows[k - 1].buy {
        LaterPurchase(BuysOf(rows, k - 1, symbol), Bought(rows[k - 1]), 0);
      }
    }
  }

  lemma {:induction false} Exhausted(buys: seq<Lot>, q: nat)
    requires q >= Units(buys)
    ensures Rest(buys, q) == Rest(buys, Units(buys)) == [] && CostUpTo(buys, q) == CostUpTo(buys, Units(buys))
  {
    hide Amount, Size;
    if buys != [] {
      Exhausted(buys[1..], q - buys[0].units);
      if q == buys[0].units {
        NothingCosts(buys[1..]);
      }
      NothingCosts(buys[1..]);
      Exhausted(buys[1..], Units(buys[1..]));
    }
  }

  lemma QueueAfter(b: Books, row: Row, symbol: string)
    requires Stored(row)
    ensures QueueOf(Entered(b, row), symbol)
      == if row.symbol != symbol then QueueOf(b, symbol)
         else if row.buy then QueueOf(b, symbol) + [Bought(row)]
         else Rest(QueueOf(b, symbol), row.qty)
  {
    hide Gross, Bought, NetProceeds;
  }

  /** Each symbol's queue is its purchases without their consumed front. */
  lemma {:induction false} QueueIsTheRest(rows: seq<Row>, k: nat, symbol: string)
    requires k <= |rows| && AllStored(rows)
    ensures QueueOf(After(rows, k), symbol) == Rest(BuysOf(rows, k, symbol), Matched(rows, k, symbol))
  {
    hide Entered, Bought, Filled;
    if k == 0 {
      assert Get(NO_BOOKS.lots, symbol).None?;
    } else {
      QueueIsTheRest(rows, k - 1, symbol);
      BuysAreFilled(rows, k - 1, symbol);
      var row, buys, before := rows[k - 1], BuysOf(rows, k - 1, symbol), Matched(rows, k - 1, symbol);
      QueueAfter(After(rows, k - 1), row, symbol);
      if row.symbol == symbol {
        if row.buy {
          StillFilled(buys, row);
          LaterPurchase(buys, Bought(row), before);
        } else {
          RestOfRest(buys, before, row.qty);
          if before + row.qty > Units(buys) {
            Exhausted(buys, before + row.qty);
          }
        }
      }
    }
  }

  lemma StillFilled(buys: seq<Lot>, row: Row)
    requires Filled(buys) && row.qty > 0
    ensures Filled(buys + [Bought(row)])
  {
  }

  lemma BoughtUnits(row: Row)
    requires row.qty > 0
    ensures Bought(row).units == row.qty
  {
  }

  lemma SaleRealizes(b: Books, row: Row)
    requires Stored(row) && !row.buy
    ensures Entered(b, row).realized == b.realized + NetProceeds(row) - CostUpTo(QueueOf(b, row.symbol), row.qty)
  {
    hide Gross, NetProceeds, Amount, Size;
  }

  lemma SliceOfSale(rows: seq<Row>, k: nat)
    requires k < |rows| && AllStored(rows) && !rows[k].buy
    ensures var row := rows[k]; var buys := BuysOf(rows, k, row.symbol);
      var from, to := Matched(rows, k, row.symbol), Matched(rows, k + 1, row.symbol);
      && to == Least(from + row.qty, Units(buys))
      && CostUpTo(QueueOf(After(rows, k), row.symbol), row.qty) == CostUpTo(buys, to) - CostUpTo(buys, from)
  {
    hide Entered, Bought, NetProceeds, Amount, Size, QueueOf;
    var row := rows[k];
    var buys := BuysOf(rows, k, row.symbol);
    var from := Matched(rows, k, row.symbol);
    QueueIsTheRest(rows, k, row.symbol);
    BuysAreFilled(rows, k, row.symbol);
    SliceCost(buys, from, row.qty);
    if from + row.qty > Units(buys) {
      Exhausted(buys, from + row.qty);
    }
  }

  /** A sale realises what it brings in after its fee, less exactly its slice of the purchases so far, in order: from
      what earlier sales consumed up to its own quantity more, or to the end of them. */
  lemma SaleCostsItsSlice(rows: seq<Row>, k: nat)
    requires k < |rows| && AllStored(rows) && !rows[k].buy
    ensures var row := rows[k]; var buys := BuysOf(rows, k, row.symbol);
      var from, to := Matched(rows, k, row.symbol), Matched(rows, k + 1, row.symbol);
      && to == (if from + row.qty < Units(buys) then from + row.qty else Units(buys))
      && After(rows, k + 1).realized == After(rows, k).realized
           + row.price * (row.qty as real * 0.000000000001) - row.fee - (CostUpTo(buys, to) - CostUpTo(buys, from))
  {
    hide Entered, CostUpTo, BuysOf, Matched;
    SaleRealizes(After(rows, k), rows[k]);
    SliceOfSale(rows, k);
  }

  /** First in, first out, in whole purchases and parts of them: the first j lots and m units of the next cost what
      those lots cost and m units at the next one's unit cost. */
  lemma {:induction false} FirstInFirstOut(buys: seq<Lot>, j: nat, m: nat)
    requires Filled(buys) && j < |buys| && m <= buys[j].units
    ensures CostUpTo(buys, Units(buys[..j]) + m)
            == Cost(buys[..j]) + buys[j].unitCost * (m as real * 0.000000000001)
  {
    if j > 0 {
      FirstInFirstOut(buys[1..], j - 1, m);
      assert buys[..j][1..] == buys[1..][..j - 1];
      if Units(buys[..j]) + m == buys[0].units {
        NothingCosts(buys[1..]);
      }
    }
  }

  // ----- Totals -----

  /** Sale proceeds less fees, and purchase cost with fees, over the first k rows. */
  function SoldFor(rows: seq<Row>, k: nat): real
    requires k <= |rows|
  {
    if k == 0 then 0.0
    else
      var row := rows[k - 1];
      SoldFor(rows, k - 1) + if row.buy then 0.0 else row.price * (row.qty as real * 0.000000000001) - row.fee
  }

  function BoughtFor(rows: seq<Row>, k: nat): real
    requires k <= |rows|
  {
    if k == 0 then 0.0
    else
      var row := rows[k - 1];
      BoughtFor(rows, k - 1) + if row.buy then row.price * (row.qty as real * 0.000000000001) + row.fee else 0.0
  }

  lemma MoneyStep(rows: seq<Row>, k: nat)
    requires k < |rows|
    ensures SoldFor(rows, k + 1) == SoldFor(rows, k) + if rows[k].buy then 0.0 else NetProceeds(rows[k])
    ensures BoughtFor(rows, k + 1) == BoughtFor(rows, k) + if rows[k].buy then Gross(rows[k]) + rows[k].fee else 0.0
  {
  }

  function QueueCost(): (string, seq<Lot>) -> real { (s: string, queue: seq<Lot>) => Cost(queue) }

  lemma LotCost(row: Row)
    requires row.qty > 0
    ensures CostOf(Bought(row)) == Gross(row) + row.fee
  {
    hide Gross;
    var size := Size(row.qty);
    assert size > 0.0;
    var total := Gross(row) + row.fee;
    assert (total / size) * size == total;
  }

  lemma NothingTraded(rows: seq<Row>)
    ensures SoldFor(rows, 0) == BoughtFor(rows, 0) == 0.0
  {
  }

  /** Realised profit is what sales brought in, less what purchases cost, plus the cost of the lots still queued. */
  lemma {:induction false} ProfitBalances(rows: seq<Row>, k: nat)
    requires k <= |rows| && AllStored(rows)
    ensures var b := After(rows, k); b.realized == SoldFor(rows, k) - BoughtFor(rows, k) + Sum(b.lots, QueueCost())
  {
    hide Gross, Bought, NetProceeds, Amount, Size, CostOf, SoldFor, BoughtFor;
    if k == 0 {
      NothingTraded(rows);
    } else {
      ProfitBalances(rows, k - 1);
      MoneyStep(rows, k - 1);
      var b, row := After(rows, k - 1), rows[k - 1];
      var queue := QueueOf(b, row.symbol);
      QueueIsFilled(rows, k - 1, row.symbol);
      assert WeightAt(b.lots, row.symbol, QueueCost()) == Cost(queue);
      if row.buy {
        SumSet(b.lots, row.symbol, queue + [Bought(row)], QueueCost());
        LaterPurchase(queue, Bought(row), 0);
        LotCost(row);
      } else {
        SumSet(b.lots, row.symbol, Rest(queue, row.qty), QueueCost());
        RestCost(queue, row.qty);
      }
    }
  }

  function NetUnits(rows: seq<Row>, k: nat, symbol: string): int
    requires k <= |rows|
  {
    if k == 0 then 0
    else
      var row := rows[k - 1];
      NetUnits(rows, k - 1, symbol)
      + (if row.symbol != symbol then 0 else if row.buy then row.qty as int else -(row.qty as int))
  }

  /** No sale of the symbol exceeds what was bought and not yet sold. */
  ghost predicate NeverOversold(rows: seq<Row>, symbol: string) {
    forall k :: 0 <= k <= |rows| ==> NetUnits(rows, k, symbol) >= 0
  }

  /** A sale that brings in more, after its fee, than its slice of the purchases cost. */
  ghost predicate Gains(rows: seq<Row>, i: nat)
    requires i < |rows| && AllStored(rows)
  {
    var row := rows[i];
    var buys := BuysOf(rows, i, row.symbol);
    && !row.buy
    && row.price * (row.qty as real * 0.000000000001) - row.fee
       > CostUpTo(buys, Matched(rows, i + 1, row.symbol)) - CostUpTo(buys, Matched(rows, i, row.symbol))
  }

  function FeesPaid(rows: seq<Row>, k: nat): real
    requires k <= |rows|
  {
    if k == 0 then 0.0 else FeesPaid(rows, k - 1) + rows[k - 1].fee
  }

  lemma ProceedsAre(row: Row)
    ensures NetProceeds(row) == row.price * (row.qty as real * 0.000000000001) - row.fee
  {
  }

  lemma EnteredCounts(b: Books, row: Row)
    requires Stored(row)
    ensures var c := Entered(b, row);
      var gain := !row.buy && NetProceeds(row) > CostUpTo(QueueOf(b, row.symbol), row.qty);
      && c.fees == b.fees + row.fee
      && c.buys == b.buys + (if row.buy then 1 else 0)
      && c.sells == b.sells + (if row.buy then 0 else 1)
      && c.wins == b.wins + (if gain then 1 else 0)
      && c.losses == b.losses + (if row.buy || gain then 0 else 1)
  {
    hide NetProceeds, CostUpTo, QueueOf, Bought, Rest;
  }

  lemma GainIs(rows: seq<Row>, k: nat)
    requires k < |rows| && AllStored(rows)
    ensures Gains(rows, k) <==>
      !rows[k].buy && NetProceeds(rows[k]) > CostUpTo(QueueOf(After(rows, k), rows[k].symbol), rows[k].qty)
  {
    hide NetProceeds, CostUpTo, QueueOf, After, BuysOf, Matched;
    ProceedsAre(rows[k]);
    if !rows[k].buy {
      SliceOfSale(rows, k);
    }
  }

  ghost function BuyRows(rows: seq<Row>, k: nat): set<nat>
    requires k <= |rows|
  {
    set i: nat | i < k && rows[i].buy
  }

  ghost function SellRows(rows: seq<Row>, k: nat): set<nat>
    requires k <= |rows|
  {
    set i: nat | i < k && !rows[i].buy
  }

  ghost function GainRows(rows: seq<Row>, k: nat): set<nat>
    requires k <= |rows| && AllStored(rows)
  {
    set i: nat | i < k && Gains(rows, i)
  }

  lemma OneMember(s: set<nat>, t: set<nat>, k: nat, hit: bool)
    requires k !in s && forall i: nat :: i in t <==> i in s || (hit && i == k)
    ensures |t| == |s| + (if hit then 1 else 0)
  {
    assert t == if hit then s + {k} else s;
  }

  lemma OneRowMore(rows: seq<Row>, k: nat)
    requires k < |rows|
    ensures |BuyRows(rows, k + 1)| == |BuyRows(rows, k)| + (if rows[k].buy then 1 else 0)
    ensures |SellRows(rows, k + 1)| == |SellRows(rows, k)| + (if rows[k].buy then 0 else 1)
  {
    OneMember(BuyRows(rows, k), BuyRows(rows, k + 1), k, rows[k].buy);
    OneMember(SellRows(rows, k), SellRows(rows, k + 1), k, !rows[k].buy);
  }

  lemma OneGainMore(rows: seq<Row>, k: nat)
    requires k < |rows| && AllStored(rows)
    ensures |GainRows(rows, k + 1)| == |GainRows(rows, k)| + (if Gains(rows, k) then 1 else 0)
  {
    hide Gains;
    OneMember(GainRows(rows, k), GainRows(rows, k + 1), k, Gains(rows, k));
  }

  lemma {:induction false} CountsAfter(rows: seq<Row>, k: nat)
    requires k <= |rows| && AllStored(rows)
    ensures var b := After(rows, k);
      && b.fees == FeesPaid(rows, k) && b.buys == |BuyRows(rows, k)|
      && b.sells == b.wins + b.losses == |SellRows(rows, k)| && b.wins == |GainRows(rows, k)|
  {
    hide Entered, Gains, NetProceeds, CostUpTo, QueueOf;
    if k == 0 {
      assert BuyRows(rows, 0) == SellRows(rows, 0) == GainRows(rows, 0) == {};
    } else {
      hide BuyRows, SellRows, GainRows;
      CountsAfter(rows, k - 1);
      EnteredCounts(After(rows, k - 1), rows[k - 1]);
      GainIs(rows, k - 1);
      OneRowMore(rows, k - 1);
      OneGainMore(rows, k - 1);
    }
  }

  /** What the report says of its rows: the profit is sales less purchases plus what is left, the fees are all fees,
      every sale counts once, and those that gain are the wins. */
  lemma ReportMeans(rows: seq<Row>)
    requires AllStored(rows)
    ensures var r := Report(rows); var n := |rows|;
      && r.realizedPnl == SoldFor(rows, n) - BoughtFor(rows, n) + Sum(After(rows, n).lots, QueueCost())
      && r.totalFees == FeesPaid(rows, n)
      && r.buys == |BuyRows(rows, n)| && r.sells == |SellRows(rows, n)| && r.wins == |GainRows(rows, n)|
      && r.winRate == if r.sells == 0 then None else Some(r.wins as real / r.sells as real)
  {
    hide After, BuyRows, SellRows, GainRows, FeesPaid, SoldFor, BoughtFor;
    ProfitBalances(rows, |rows|);
    CountsAfter(rows, |rows|);
  }

  /** The queued lots add up to the held quantity exactly when nothing was ever sold short. */
  lemma QueueIsHoldingIff(rows: seq<Row>, symbol: string)
    requires AllStored(rows)
    ensures NeverOversold(rows, symbol)
       <==> forall k :: 0 <= k <= |rows| ==> Units(QueueOf(After(rows, k), symbol)) == NetUnits(rows, k, symbol)
  {
    if NeverOversold(rows, symbol) {
      forall k | 0 <= k <= |rows|
        ensures Units(QueueOf(After(rows, k), symbol)) == NetUnits(rows, k, symbol)
      {
        QueueIsHolding(rows, k, symbol);
      }
    } else {
      var k :| 0 <= k <= |rows| && NetUnits(rows, k, symbol) < 0;
      assert Units(QueueOf(After(rows, k), symbol)) >= 0;
    }
  }

  lemma {:induction false} QueueIsHolding(rows: seq<Row>, k: nat, symbol: string)
    requires k <= |rows| && AllStored(rows) && NeverOversold(rows, symbol)
    ensures Units(QueueOf(After(rows, k), symbol)) == NetUnits(rows, k, symbol)
    ensures Units(BuysOf(rows, k, symbol)) - Matched(rows, k, symbol) == NetUnits(rows, k, symbol)
  {
    hide QueueOf, Entered, Bought;
    QueueIsTheRest(rows, k, symbol);
    BuysAreFilled(rows, k, symbol);
    RestIsFilled(BuysOf(rows, k, symbol), Matched(rows, k, symbol));
    if k != 0 {
      QueueIsHolding(rows, k - 1, symbol);
      assert NetUnits(rows, k, symbol) >= 0;
      if rows[k - 1].buy {
        LaterPurchase(BuysOf(rows, k - 1, symbol), Bought(rows[k - 1]), 0);
        BoughtUnits(rows[k - 1]);
      }
    }
  }

  lemma QueueIsFilled(rows: seq<Row>, k: nat, symbol: string)
    requires k <= |rows| && AllStored(rows)
    ensures Filled(QueueOf(After(rows, k), symbol))
  {
    QueueIsTheRest(rows, k, symbol);
    BuysAreFilled(rows, k, symbol);
    RestIsFilled(BuysOf(rows, k, symbol), Matched(rows, k, symbol));
  }

  // ----- The route -----

  /** One row of the route's loop. */
  method Enter(books: Books, row: Row) returns (b: Books)
    requires Stored(row) && Filled(QueueOf(books, row.symbol))
    ensures b == Entered(books, row)
  {
    hide Gross, Bought, NetProceeds;
    b := books.(fees := books.fees + row.fee);
    var queue := QueueOf(b, row.symbol);
    if row.buy {
      b := b.(buys := b.buys + 1, lots := Set(b.lots, row.symbol, queue + [Bought(row)]));
    } else {
      var rest, matchedCost := Consume(queue, row.qty);
      var pnl := NetProceeds(row) - matchedCost;
      b := b.(sells := b.sells + 1, lots := Set(b.lots, row.symbol, rest), realized := b.realized + pnl);
      if pnl > 0.0 {
        b := b.(wins := b.wins + 1);
      } else {
        b := b.(losses := b.losses + 1);
      }
    }
  }

  method Compute(rows: seq<Row>) returns (payload: Payload)
    requires AllStored(rows)
    ensures payload == Report(rows)
  {
    hide Entered;
    var b := NO_BOOKS;
    for k := 0 to |rows|
      invariant b == After(rows, k)
    {
      QueueIsFilled(rows, k, rows[k].symbol);
      b := Enter(b, rows[k]);
    }
    payload := Payload(b.realized, b.fees, b.buys, b.sells, b.wins, WinRate(b.wins, b.losses));
  }

  // ----- The count-keyed cache -----

  /** An insert-only history: each version of the table has strictly more rows than the one before. */
  predicate InsertOnly(versions: seq<seq<Row>>) {
    && versions != []
    && (forall v :: 0 <= v < |versions| ==> AllStored(versions[v]))
    && forall u, v :: 0 <= u < v < |versions| ==> |versions[u]| < |versions[v]|
  }

  datatype Entry = Entry(n: nat, payload: Payload)

  /** A request between its two queries: it has counted the rows, and looked at the cache, when version v was
      current. */
  datatype Request = Request(n: nat, asked: nat)

  datatype Server = Server(versions: seq<seq<Row>>, cache: Option<Entry>, waiting: seq<Request>, computed: seq<Entry>)

  datatype Event =
    | Insert(rows: seq<Row>)
    | Count
    | Read(i: nat)
    | Store(i: nat)

  function Current(s: Server): seq<Row>
    requires s.versions != []
  {
    s.versions[|s.versions| - 1]
  }

  predicate Possible(s: Server, e: Event) {
    InsertOnly(s.versions) &&
    match e
    case Insert(rows) => AllStored(rows) && |rows| > |Current(s)|
    case Count => true
    case Read(i) => i < |s.waiting|
    case Store(i) => i < |s.computed|
  }

  function Next(s: Server, e: Event): Server
    requires Possible(s, e)
  {
    match e
    case Insert(rows) => s.(versions := s.versions + [rows])
    case Count => s.(waiting := s.waiting + [Request(|Current(s)|, |s.versions| - 1)])
    case Read(i) => s.(computed := s.computed + [Entry(s.waiting[i].n, Report(Current(s)))])
    case Store(i) => s.(cache := Some(s.computed[i]))
  }

  /** The payload of an entry is the report of some version at least as long as its key. */
  ghost predicate Sound(s: Server, e: Entry) {
    exists v :: 0 <= v < |s.versions| && ReportsOn(s.versions[v], e)
  }

  predicate ReportsOn(rows: seq<Row>, e: Entry) {
    AllStored(rows) && e.payload == Report(rows) && e.n <= |rows|
  }

  ghost predicate Consistent(s: Server) {
    && InsertOnly(s.versions)
    && (s.cache.Some? ==> Sound(s, s.cache.value))
    && (forall i :: 0 <= i < |s.computed| ==> Sound(s, s.computed[i]))
    && forall i :: 0 <= i < |s.waiting| ==>
         s.waiting[i].asked < |s.versions| && s.waiting[i].n == |s.versions[s.waiting[i].asked]|
  }

  lemma StillSound(s: Server, rows: seq<Row>, e: Entry)
    requires Possible(s, Insert(rows)) && Sound(s, e)
    ensures Sound(Next(s, Insert(rows)), e)
  {
    hide ReportsOn;
    var v :| 0 <= v < |s.versions| && ReportsOn(s.versions[v], e);
    assert Next(s, Insert(rows)).versions[v] == s.versions[v];
  }

  /** Whatever the order of inserts, counts, reads and stores of any number of requests. */
  lemma CacheStaysConsistent(s: Server, e: Event)
    requires Consistent(s) && Possible(s, e)
    ensures Consistent(Next(s, e))
  {
    hide Report;
    match e
    case Insert(rows) =>
      if s.cache.Some? {
        StillSound(s, rows, s.cache.value);
      }
      forall i | 0 <= i < |s.computed| {
        StillSound(s, rows, s.computed[i]);
      }
    case Count =>
    case Read(i) =>
      var t := Next(s, e);
      assert |s.versions[s.waiting[i].asked]| <= |Current(s)|;
      assert Sound(t, t.computed[|s.computed|]) by {
        assert t.versions[|s.versions| - 1] == Current(s);
      }
      forall j | 0 <= j < |s.computed|
        ensures Sound(t, t.computed[j])
      {
      }
    case Store(i) =>
  }

  /** A hit answers with the full report of a version no older than the one the request counted; when nothing was
      inserted since, that is the report of the table as it stands. */
  lemma HitIsFresh(s: Server, i: nat)
    requires Consistent(s) && i < |s.waiting| && s.cache.Some? && s.cache.value.n == s.waiting[i].n
    ensures exists v :: s.waiting[i].asked <= v < |s.versions| && s.cache.value.payload == Report(s.versions[v])
    ensures s.waiting[i].n == |Current(s)| ==> s.cache.value.payload == Report(Current(s))
  {
    hide Report;
    var v :| 0 <= v < |s.versions| && ReportsOn(s.versions[v], s.cache.value);
    assert v >= s.waiting[i].asked;
  }

  predicate Served(s: Server, events: seq<Event>)
    decreases events
  {
    events == [] || (Possible(s, events[0]) && Served(Next(s, events[0]), events[1..]))
  }

  function Reached(s: Server, events: seq<Event>): Server
    requires Served(s, events)
    decreases events
  {
    if events == [] then s else Reached(Next(s, events[0]), events[1..])
  }

  function Started(rows: seq<Row>): Server { Server([rows], None, [], []) }

  lemma {:induction false} ServingStaysConsistent(s: Server, events: seq<Event>)
    requires Consistent(s) && Served(s, events)
    ensures Consistent(Reached(s, events))
    decreases events
  {
    hide Consistent, Possible, Next;
    if events != [] {
      CacheStaysConsistent(s, events[0]);
      ServingStaysConsistent(Next(s, events[0]), events[1..]);
    }
  }

  /** From a cold cache, through any requests and inserts: a hit is the full report of some version the table has had
      since the request counted its rows, and of the present one if nothing was inserted since. */
  lemma EveryHitIsFresh(rows: seq<Row>, events: seq<Event>, i: nat)
    requires AllStored(rows) && Served(Started(rows), events)
    requires var s := Reached(Started(rows), events);
      i < |s.waiting| && s.cache.Some? && s.cache.value.n == s.waiting[i].n
    ensures var s := Reached(Started(rows), events);
      && s.versions != []
      && (exists v :: s.waiting[i].asked <= v < |s.versions| && AllStored(s.versions[v])
            && s.cache.value.payload == Report(s.versions[v]))
      && (s.waiting[i].n == |Current(s)| ==> AllStored(Current(s)) && s.cache.value.payload == Report(Current(s)))
  {
    hide Report, Reached;
    assert Consistent(Started(rows));
    ServingStaysConsistent(Started(rows), events);
    HitIsFresh(Reached(Started(rows), events), i);
  }
}
