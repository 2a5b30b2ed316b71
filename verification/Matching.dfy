/** The matching engine: latest prices, market orders waiting for a first price, resting limit orders. */
module Matching {
  import opened Money
  import opened Schemas
  import opened Dict

  datatype Fill = Fill(order: Order, price: real)

  /** execution_id is derived from the order id; the fee is a share of the traded value. */
  function ExecutionOf(f: Fill): Execution {
    Execution(Uuid5(f.order.id), f.order.id, f.order.account, f.order.symbol, f.order.side,
              f.price, f.order.quantity, Fee(f.price, f.order.quantity))
  }

  function Executions(fills: seq<Fill>): (r: seq<Execution>)
    ensures |r| == |fills| && forall i :: 0 <= i < |r| ==> r[i] == ExecutionOf(fills[i])
  {
    seq(|fills|, i requires 0 <= i < |fills| => ExecutionOf(fills[i]))
  }

  lemma ExecutionsConcat(a: seq<Fill>, b: seq<Fill>)
    ensures Executions(a + b) == Executions(a) + Executions(b)
  {
    forall i | 0 <= i < |a + b|
      ensures Executions(a + b)[i] == (Executions(a) + Executions(b))[i]
    {
    }
  }

  /** A limit is only a trigger: the fill happens at the market price that triggered it. */
  function LimitFillPrice(order: Order, market: real): (r: Option<real>)
    requires order.kind.LIMIT?
    ensures r.Some? <==> if order.side == BUY then order.kind.price >= market else order.kind.price <= market
    ensures r.Some? ==> r.value == market
  {
    if order.side.BUY? && market <= order.kind.price then Some(market)
    else if order.side.SELL? && market >= order.kind.price then Some(market)
    else None
  }

  /** Whether the order fills once its symbol trades at the given price (None: no price seen yet). */
  predicate Fillable(order: Order, price: Option<real>) {
    price.Some? && (order.kind.MARKET? || LimitFillPrice(order, price.value).Some?)
  }

  type Book = map<string, seq<Order>>

  function At(book: Book, symbol: string): seq<Order> {
    if symbol in book then book[symbol] else []
  }

  function AllFilled(orders: seq<Order>, price: real): (r: seq<Fill>)
    ensures |r| == |orders| && forall i :: 0 <= i < |r| ==> r[i] == Fill(orders[i], price)
  {
    seq(|orders|, i requires 0 <= i < |orders| => Fill(orders[i], price))
  }

  function Triggered(orders: seq<Order>, price: real): seq<Fill> {
    if orders == [] then []
    else
      var o := orders[|orders| - 1];
      var front := Triggered(orders[..|orders| - 1], price);
      if Fillable(o, Some(price)) then front + [Fill(o, price)] else front
  }

  function Waiting(orders: seq<Order>, price: real): seq<Order> {
    if orders == [] then []
    else
      var o := orders[|orders| - 1];
      var front := Waiting(orders[..|orders| - 1], price);
      if Fillable(o, Some(price)) then front else front + [o]
  }

  ghost predicate AllLimits(book: Book) {
    forall s, i :: s in book && 0 <= i < |book[s]| ==> book[s][i].kind.LIMIT?
  }

  ghost predicate AllMarkets(book: Book) {
    forall s, i :: s in book && 0 <= i < |book[s]| ==> book[s][i].kind.MARKET?
  }

  /** What an execution says of the order it executes: its account, symbol, side and quantity, a price at its limit or
      better, and a fee of the fee rate on the money that really moves, to half a tick. */
  predicate Executes(x: Execution, o: Order) {
    && x.id == Uuid5(o.id) && x.order == o.id && x.account == o.account && x.symbol == o.symbol
    && x.side == o.side && x.quantity == o.quantity
    && (o.kind.LIMIT? ==> if o.side == BUY then x.price <= o.kind.price else x.price >= o.kind.price)
    && x.price * x.quantity * FEE_RATE - HALF_TICK <= x.fee <= x.price * x.quantity * FEE_RATE + HALF_TICK
  }

  lemma ExecutionSays(f: Fill)
    requires Fillable(f.order, Some(f.price))
    ensures Executes(ExecutionOf(f), f.order) && ExecutionOf(f).price == f.price
  {
    hide Fee;
  }

  /** Every execution sent for the fills of a price is one of theirs, at that price. */
  ghost predicate SentAt(xs: seq<Execution>, orders: set<Order>, price: real) {
    forall i :: 0 <= i < |xs| ==> xs[i].price == price && exists o :: o in orders && Executes(xs[i], o)
  }

  lemma FillsAreSent(fills: seq<Fill>, orders: set<Order>, price: real)
    requires forall i :: 0 <= i < |fills| ==>
      fills[i].order in orders && fills[i].price == price && Fillable(fills[i].order, Some(price))
    ensures SentAt(Executions(fills), orders, price)
  {
    hide ExecutionOf, Fillable;
    var xs := Executions(fills);
    forall i | 0 <= i < |xs|
      ensures xs[i].price == price && exists o :: o in orders && Executes(xs[i], o)
    {
      ExecutionSays(fills[i]);
      assert xs[i] == ExecutionOf(fills[i]) && fills[i].order in orders;
    }
  }

  /** The orders of a symbol that wait, for a price or for their limit. */
  function WaitingFor(pending: Book, limits: Book, symbol: string): set<Order> {
    (set o | o in At(pending, symbol)) + (set o | o in At(limits, symbol))
  }

  lemma TickIsSent(pending: Book, limits: Book, symbol: string, price: real)
    requires AllMarkets(pending)
    ensures SentAt(Executions(AllFilled(At(pending, symbol), price) + Triggered(At(limits, symbol), price)),
                   WaitingFor(pending, limits, symbol), price)
  {
    hide Executions, SentAt;
    var market, limit := AllFilled(At(pending, symbol), price), Triggered(At(limits, symbol), price);
    var all: seq<Fill> := market + limit;
    TriggeredFillable(At(limits, symbol), price);
    forall i | 0 <= i < |all|
      ensures all[i].order in WaitingFor(pending, limits, symbol) && all[i].price == price
      ensures Fillable(all[i].order, Some(price))
    {
      if i < |market| {
        assert all[i] == Fill(At(pending, symbol)[i], price);
      } else {
        assert all[i] == limit[i - |market|] && limit[i - |market|] in limit;
      }
    }
    FillsAreSent(all, WaitingFor(pending, limits, symbol), price);
  }

  class MatchingEngine {
    var latestPrice: map<string, real>
    var pending: Book
    var limitOrders: Book
    var produced: seq<Execution>

    ghost predicate Valid()
      reads this
    {
      AllLimits(limitOrders) && AllMarkets(pending)
    }

    function State(): Engine
      reads this
    {
      Engine(latestPrice, pending, limitOrders)
    }

    /** Start-up: every PENDING row goes back into the book of its type. */
    constructor (rows: seq<Order>)
      ensures Valid() && State() == Reseed(rows) && produced == []
    {
      latestPrice := map[];
      produced := [];
      var market: Book := map[];
      var limit: Book := map[];
      for i := 0 to |rows|
        invariant AllLimits(limit) && AllMarkets(market)
        invariant Engine(map[], market, limit) == Reseed(rows[..i])
      {
        var order := rows[i];
        assert rows[..i + 1][..i] == rows[..i];
        if order.kind.MARKET? {
          market := market[order.symbol := At(market, order.symbol) + [order]];
        } else {
          limit := limit[order.symbol := At(limit, order.symbol) + [order]];
        }
      }
      assert rows[..|rows|] == rows;
      pending, limitOrders := market, limit;
    }

    method Execute(order: Order, price: real)
      modifies this`produced
      ensures produced == old(produced) + [ExecutionOf(Fill(order, price))]
    {
      produced := produced + [ExecutionOf(Fill(order, price))];
    }

    method OnTick(symbol: string, price: real)
      requires Valid()
      modifies this
      ensures Valid() && State() == AfterTick(old(State()), symbol, price).0
      ensures produced == old(produced) + Executions(AfterTick(old(State()), symbol, price).1)
      ensures SentAt(produced[|old(produced)|..], old(WaitingFor(pending, limitOrders, symbol)), price)
    {
      hide Executions, ExecutionOf, AllFilled, Fillable, AllLimits, SentAt, WaitingFor;
      TickIsSent(pending, limitOrders, symbol, price);
      ghost var market, limit := At(pending, symbol), At(limitOrders, symbol);
      ghost var sent := produced;
      latestPrice := latestPrice[symbol := price];
      ReleaseMarket(symbol, price);
      RecheckLimits(symbol, price);
      ExecutionsConcat(AllFilled(market, price), Triggered(limit, price));
      assert produced == (sent + Executions(AllFilled(market, price))) + Executions(Triggered(limit, price));
      assert produced == sent + Executions(AllFilled(market, price) + Triggered(limit, price));
      assert produced[|sent|..] == Executions(AllFilled(market, price) + Triggered(limit, price));
    }

    /** Market orders that waited for a first price. */
    method ReleaseMarket(symbol: string, price: real)
      modifies this`pending, this`produced
      ensures pending == old(pending) - {symbol}
      ensures produced == old(produced) + Executions(AllFilled(At(old(pending), symbol), price))
    {
      var released := At(pending, symbol);
      ghost var sent := produced;
      pending := pending - {symbol};
      for i := 0 to |released|
        invariant pending == old(pending) - {symbol}
        invariant produced == sent + Executions(AllFilled(released[..i], price))
      {
        Execute(released[i], price);
        assert AllFilled(released[..i + 1], price) == AllFilled(released[..i], price) + [Fill(released[i], price)];
        ExecutionsConcat(AllFilled(released[..i], price), [Fill(released[i], price)]);
      }
      assert released[..|released|] == released;
    }

    method RecheckLimits(symbol: string, price: real)
      requires Valid()
      modifies this`limitOrders, this`produced
      ensures AllLimits(limitOrders)
      ensures limitOrders == if symbol in old(limitOrders)
                             then old(limitOrders)[symbol := Waiting(old(limitOrders)[symbol], price)]
                             else old(limitOrders)
      ensures produced == old(produced) + Executions(Triggered(At(old(limitOrders), symbol), price))
    {
      if symbol in limitOrders {
        var resting := limitOrders[symbol];
        var stillWaiting: seq<Order> := [];
        ghost var sent := produced;
        for i := 0 to |resting|
          invariant limitOrders == old(limitOrders)
          invariant stillWaiting == Waiting(resting[..i], price)
          invariant produced == sent + Executions(Triggered(resting[..i], price))
        {
          var fill := LimitFillPrice(resting[i], price);
          assert resting[..i + 1][..i] == resting[..i];
          if fill.Some? {
            Execute(resting[i], fill.value);
            ExecutionsConcat(Triggered(resting[..i], price), [Fill(resting[i], price)]);
          } else {
            stillWaiting := stillWaiting + [resting[i]];
          }
        }
        assert resting[..|resting|] == resting;
        WaitingIsSubset(resting, price);
        assert forall i :: 0 <= i < |stillWaiting| ==> stillWaiting[i] in resting;
        limitOrders := limitOrders[symbol := stillWaiting];
      }
    }

    method OnOrder(order: Order)
      requires Valid()
      modifies this
      ensures Valid() && State() == AfterOrder(old(State()), order).0
      ensures produced == old(produced) + Executions(AfterOrder(old(State()), order).1)
      ensures |produced| > |old(produced)| ==>
        && order.symbol in latestPrice
        && SentAt(produced[|old(produced)|..], {order}, latestPrice[order.symbol])
    {
      hide ExecutionOf, Executes;
      if order.symbol in latestPrice && Fillable(order, Some(latestPrice[order.symbol])) {
        ExecutionSays(Fill(order, latestPrice[order.symbol]));
      }
      if order.kind.MARKET? {
        if order.symbol in latestPrice {
          Execute(order, latestPrice[order.symbol]);
        } else {
          pending := pending[order.symbol := At(pending, order.symbol) + [order]];
        }
      } else {
        var fill := if order.symbol in latestPrice then LimitFillPrice(order, latestPrice[order.symbol]) else None;
        if fill.Some? {
          Execute(order, fill.value);
        } else {
          limitOrders := limitOrders[order.symbol := At(limitOrders, order.symbol) + [order]];
        }
      }
    }
  }

  // ----- The engine as a function of its messages -----

  datatype Engine = Engine(latest: map<string, real>, pending: Book, limits: Book)

  function Reseed(rows: seq<Order>): Engine {
    if rows == [] then Engine(map[], map[], map[])
    else
      var o := rows[|rows| - 1];
      var e := Reseed(rows[..|rows| - 1]);
      if o.kind.MARKET? then e.(pending := e.pending[o.symbol := At(e.pending, o.symbol) + [o]])
      else e.(limits := e.limits[o.symbol := At(e.limits, o.symbol) + [o]])
  }

  function AfterTick(e: Engine, symbol: string, price: real): (Engine, seq<Fill>) {
    (Engine(e.latest[symbol := price], e.pending - {symbol},
            if symbol in e.limits then e.limits[symbol := Waiting(e.limits[symbol], price)] else e.limits),
     AllFilled(At(e.pending, symbol), price) + Triggered(At(e.limits, symbol), price))
  }

  function Price(e: Engine, symbol: string): Option<real> {
    if symbol in e.latest then Some(e.latest[symbol]) else None
  }

  function AfterOrder(e: Engine, o: Order): (Engine, seq<Fill>) {
    if Fillable(o, Price(e, o.symbol)) then (e, [Fill(o, e.latest[o.symbol])])
    else if o.kind.MARKET? then (e.(pending := e.pending[o.symbol := At(e.pending, o.symbol) + [o]]), [])
    else (e.(limits := e.limits[o.symbol := At(e.limits, o.symbol) + [o]]), [])
  }

  lemma {:induction false} WaitingIsSubset(orders: seq<Order>, price: real)
    ensures forall o :: o in Waiting(orders, price) ==> o in orders && !Fillable(o, Some(price))
    ensures forall o :: o in orders ==> o in Waiting(orders, price) || Fill(o, price) in Triggered(orders, price)
    ensures forall f :: f in Triggered(orders, price) ==> f.order in orders && f.price == price
  {
    if orders != [] {
      WaitingIsSubset(orders[..|orders| - 1], price);
      assert orders == orders[..|orders| - 1] + [orders[|orders| - 1]];
    }
  }

  // ----- Reference: what a stream of messages must leave behind -----

  datatype Message = Tick(symbol: string, price: real) | NewOrder(order: Order)

  function Run(h: seq<Message>): (Engine, seq<Fill>) {
    if h == [] then (Engine(map[], map[], map[]), [])
    else
      var (e, fills) := Run(h[..|h| - 1]);
      var (e', more) := match h[|h| - 1]
        case Tick(s, p) => AfterTick(e, s, p)
        case NewOrder(o) => AfterOrder(e, o);
      (e', fills + more)
  }

  /** Price of a symbol after the first k messages of the stream. */
  function PriceAfter(h: seq<Message>, k: nat, symbol: string): Option<real>
    requires k <= |h|
  {
    if k == 0 then None
    else match h[k - 1]
      case Tick(s, p) => if s == symbol then Some(p) else PriceAfter(h, k - 1, symbol)
      case NewOrder(_) => PriceAfter(h, k - 1, symbol)
  }

  function LastPrice(h: seq<Message>, symbol: string): Option<real> {
    PriceAfter(h, |h|, symbol)
  }

  lemma {:induction false} SamePast(h: seq<Message>, m: Message, k: nat, symbol: string)
    requires k <= |h|
    ensures PriceAfter(h + [m], k, symbol) == PriceAfter(h, k, symbol)
  {
    if k > 0 {
      SamePast(h, m, k - 1, symbol);
    }
  }

  /** Message j is an order that was fillable at no moment from its arrival to the end of the stream. */
  ghost predicate Resting(h: seq<Message>, j: nat)
    requires j < |h|
  {
    h[j].NewOrder? && forall k :: j < k <= |h| ==> UnfillableAfter(h, k, h[j].order)
  }

  predicate UnfillableAfter(h: seq<Message>, k: nat, o: Order)
    requires k <= |h|
  {
    !Fillable(o, PriceAfter(h, k, o.symbol))
  }

  /** Resting orders of one symbol and type among the first n messages, in arrival order. */
  ghost function RestingOrders(h: seq<Message>, symbol: string, market: bool, n: nat): seq<Order>
    requires n <= |h|
  {
    if n == 0 then []
    else
      RestingOrders(h, symbol, market, n - 1) + Kept(h, symbol, market, n - 1)
  }

  ghost function Kept(h: seq<Message>, symbol: string, market: bool, j: nat): seq<Order>
    requires j < |h|
  {
    if Resting(h, j) && h[j].order.symbol == symbol && h[j].order.kind.MARKET? == market then [h[j].order] else []
  }

  ghost predicate BooksMatch(h: seq<Message>, e: Engine) {
    forall s :: Price(e, s) == LastPrice(h, s)
                && At(e.pending, s) == RestingOrders(h, s, true, |h|)
                && At(e.limits, s) == RestingOrders(h, s, false, |h|)
  }

  lemma LastPriceNext(h: seq<Message>, m: Message, s: string)
    ensures LastPrice(h + [m], s) == if m.Tick? && m.symbol == s then Some(m.price) else LastPrice(h, s)
  {
    SamePast(h, m, |h|, s);
  }

  /** The last moment of the stream counts, and for the newest message it is the only one. */
  lemma RestingNow(h: seq<Message>, j: nat)
    requires j < |h| && h[j].NewOrder?
    ensures Resting(h, j) ==> !Fillable(h[j].order, LastPrice(h, h[j].order.symbol))
    ensures j == |h| - 1 ==> (Resting(h, j) <==> !Fillable(h[j].order, LastPrice(h, h[j].order.symbol)))
  {
    assert UnfillableAfter(h, |h|, h[j].order) <==> !Fillable(h[j].order, LastPrice(h, h[j].order.symbol));
  }

  lemma RestingNext(h: seq<Message>, m: Message, j: nat)
    requires j < |h| && h[j].NewOrder?
    ensures Resting(h + [m], j)
            <==> Resting(h, j) && !Fillable(h[j].order, LastPrice(h + [m], h[j].order.symbol))
  {
    var h', o := h + [m], h[j].order;
    RestingNow(h', j);
    forall k | j < k <= |h|
      ensures UnfillableAfter(h', k, o) <==> UnfillableAfter(h, k, o)
    {
      SamePast(h, m, k, o.symbol);
    }
    assert UnfillableAfter(h', |h'|, o) <==> !Fillable(o, LastPrice(h', o.symbol));
  }

  lemma WaitingAppend(orders: seq<Order>, o: Order, price: real)
    ensures Waiting(orders + [o], price)
            == if Fillable(o, Some(price)) then Waiting(orders, price) else Waiting(orders, price) + [o]
    ensures Triggered(orders + [o], price)
            == if Fillable(o, Some(price)) then Triggered(orders, price) + [Fill(o, price)]
               else Triggered(orders, price)
  {
    assert (orders + [o])[..|orders|] == orders;
  }

  lemma KeptStep(h: seq<Message>, m: Message, symbol: string, market: bool, j: nat, before: seq<Order>)
    requires j < |h|
    ensures if m.Tick? && m.symbol == symbol
            then Waiting(before + Kept(h, symbol, market, j), m.price)
                 == Waiting(before, m.price) + Kept(h + [m], symbol, market, j)
            else Kept(h + [m], symbol, market, j) == Kept(h, symbol, market, j)
  {
    if h[j].NewOrder? {
      RestingNext(h, m, j);
      RestingNow(h, j);
      LastPriceNext(h, m, h[j].order.symbol);
    }
    if m.Tick? && m.symbol == symbol {
      if Kept(h, symbol, market, j) == [] {
        assert before + Kept(h, symbol, market, j) == before;
      } else {
        WaitingAppend(before, h[j].order, m.price);
      }
    }
  }

  /** One more message m: the earlier resting orders are those the new price does not fill. */
  lemma {:induction false} RestingStep(h: seq<Message>, m: Message, symbol: string, market: bool, n: nat)
    requires n <= |h|
    ensures RestingOrders(h + [m], symbol, market, n) ==
      if m.Tick? && m.symbol == symbol then Waiting(RestingOrders(h, symbol, market, n), m.price)
      else RestingOrders(h, symbol, market, n)
  {
    if n > 0 {
      RestingStep(h, m, symbol, market, n - 1);
      KeptStep(h, m, symbol, market, n - 1, RestingOrders(h, symbol, market, n - 1));
    }
  }

  lemma {:induction false} MarketBookEmpties(h: seq<Message>, symbol: string, n: nat)
    requires n <= |h| && LastPrice(h, symbol).Some?
    ensures RestingOrders(h, symbol, true, n) == []
  {
    if n > 0 {
      MarketBookEmpties(h, symbol, n - 1);
      if h[n - 1].NewOrder? {
        RestingNow(h, n - 1);
      }
    }
  }

  /** The newest message joins the resting orders exactly when it is an order nothing fills on arrival. */
  lemma NewestResting(g: seq<Message>, m: Message, s: string, market: bool)
    ensures var h := g + [m];
      RestingOrders(h, s, market, |h|) == RestingOrders(h, s, market, |g|)
        + (if m.NewOrder? && m.order.symbol == s && m.order.kind.MARKET? == market
              && !Fillable(m.order, LastPrice(g, s)) then [m.order] else [])
  {
    var h := g + [m];
    if m.NewOrder? {
      RestingNow(h, |g|);
      LastPriceNext(g, m, m.order.symbol);
    }
  }

  lemma TickMatches(g: seq<Message>, e: Engine, symbol: string, price: real, s: string)
    requires BooksMatch(g, e)
    ensures var h := g + [Tick(symbol, price)];
      var e' := AfterTick(e, symbol, price).0;
      Price(e', s) == LastPrice(h, s)
      && At(e'.pending, s) == RestingOrders(h, s, true, |h|)
      && At(e'.limits, s) == RestingOrders(h, s, false, |h|)
  {
    var m := Tick(symbol, price);
    var h := g + [m];
    LastPriceNext(g, m, s);
    RestingStep(g, m, s, true, |g|);
    RestingStep(g, m, s, false, |g|);
    NewestResting(g, m, s, true);
    NewestResting(g, m, s, false);
    if s == symbol {
      MarketBookEmpties(h, s, |h|);
    }
  }

  lemma OrderMatches(g: seq<Message>, e: Engine, o: Order, s: string)
    requires BooksMatch(g, e)
    ensures var h := g + [NewOrder(o)];
      var e' := AfterOrder(e, o).0;
      Price(e', s) == LastPrice(h, s)
      && At(e'.pending, s) == RestingOrders(h, s, true, |h|)
      && At(e'.limits, s) == RestingOrders(h, s, false, |h|)
  {
    hide LimitFillPrice, LastPrice;
    var m := NewOrder(o);
    LastPriceNext(g, m, s);
    RestingStep(g, m, s, true, |g|);
    RestingStep(g, m, s, false, |g|);
    NewestResting(g, m, s, true);
    NewestResting(g, m, s, false);
    assert Price(e, o.symbol) == LastPrice(g, o.symbol);
  }

  /** The books always hold exactly the orders the stream has never been able to fill, oldest first. */
  lemma {:induction false} BooksAreRestingOrders(h: seq<Message>)
    ensures BooksMatch(h, Run(h).0)
  {
    if h != [] {
      var g, m := h[..|h| - 1], h[|h| - 1];
      assert h == g + [m];
      BooksAreRestingOrders(g);
      var e, e' := Run(g).0, Run(h).0;
      forall s
        ensures Price(e', s) == LastPrice(h, s) && At(e'.pending, s) == RestingOrders(h, s, true, |h|)
                && At(e'.limits, s) == RestingOrders(h, s, false, |h|)
      {
        match m
        case Tick(symbol, price) => TickMatches(g, e, symbol, price, s);
        case NewOrder(o) => OrderMatches(g, e, o, s);
      }
    }
  }

  /** After every message: nothing marketable rests, nothing waits on a priced symbol. */
  lemma NothingFillableRests(h: seq<Message>, s: string, o: Order)
    requires o in At(Run(h).0.limits, s) || o in At(Run(h).0.pending, s)
    ensures o.symbol == s && !Fillable(o, Price(Run(h).0, s))
    ensures o in At(Run(h).0.pending, s) ==> Price(Run(h).0, s).None?
  {
    BooksAreRestingOrders(h);
    RestingMembers(h, s, true, |h|);
    RestingMembers(h, s, false, |h|);
  }

  lemma {:induction false} RestingMembers(h: seq<Message>, symbol: string, market: bool, n: nat)
    requires n <= |h|
    ensures forall o :: o in RestingOrders(h, symbol, market, n) ==>
      o.symbol == symbol && o.kind.MARKET? == market && !Fillable(o, LastPrice(h, symbol))
  {
    if n > 0 {
      RestingMembers(h, symbol, market, n - 1);
      if h[n - 1].NewOrder? {
        RestingNow(h, n - 1);
      }
    }
  }

  function Copies(orders: seq<Order>, o: Order): nat {
    if orders == [] then 0 else Copies(orders[..|orders| - 1], o) + (if orders[|orders| - 1] == o then 1 else 0)
  }

  function TimesReceived(h: seq<Message>, o: Order): nat {
    if h == [] then 0 else TimesReceived(h[..|h| - 1], o) + (if h[|h| - 1] == NewOrder(o) then 1 else 0)
  }

  function TimesFilled(fills: seq<Fill>, o: Order): nat {
    if fills == [] then 0 else TimesFilled(fills[..|fills| - 1], o) + (if fills[|fills| - 1].order == o then 1 else 0)
  }

  lemma {:induction false} FilledConcat(a: seq<Fill>, b: seq<Fill>, o: Order)
    ensures TimesFilled(a + b, o) == TimesFilled(a, o) + TimesFilled(b, o)
  {
    if b == [] {
      assert a + b == a;
    } else {
      FilledConcat(a, b[..|b| - 1], o);
      assert (a + b)[..|a + b| - 1] == a + b[..|b| - 1];
    }
  }

  lemma FilledAppend(a: seq<Fill>, f: Fill, o: Order)
    ensures TimesFilled(a + [f], o) == TimesFilled(a, o) + (if f.order == o then 1 else 0)
  {
    assert (a + [f])[..|a|] == a;
  }

  lemma CopiesAppend(orders: seq<Order>, x: Order, o: Order)
    ensures Copies(orders + [x], o) == Copies(orders, o) + (if x == o then 1 else 0)
  {
    assert (orders + [x])[..|orders|] == orders;
  }

  lemma {:induction false} AllFilledCopies(orders: seq<Order>, price: real, o: Order)
    ensures TimesFilled(AllFilled(orders, price), o) == Copies(orders, o)
  {
    if orders != [] {
      var front := orders[..|orders| - 1];
      AllFilledCopies(front, price, o);
      assert AllFilled(orders, price)[..|front|] == AllFilled(front, price);
    }
  }

  /** A tick splits a book: triggered and waiting together are the book. */
  lemma {:induction false} TriggeredOrWaiting(orders: seq<Order>, price: real, o: Order)
    ensures Copies(orders, o) == TimesFilled(Triggered(orders, price), o) + Copies(Waiting(orders, price), o)
  {
    if orders != [] {
      var front, x := orders[..|orders| - 1], orders[|orders| - 1];
      TriggeredOrWaiting(front, price, o);
      CopiesAppend(Waiting(front, price), x, o);
      FilledAppend(Triggered(front, price), Fill(x, price), o);
    }
  }

  lemma {:induction false} CopiesOfAbsent(orders: seq<Order>, o: Order)
    requires o !in orders
    ensures Copies(orders, o) == 0
  {
    if orders != [] {
      CopiesOfAbsent(orders[..|orders| - 1], o);
    }
  }

  /** What a tick does to one order: its copies move from the books to the fills. */
  lemma TickMoves(g: seq<Message>, symbol: string, price: real, o: Order)
    ensures var e := Run(g).0; var (e', more) := AfterTick(e, symbol, price);
      Copies(At(e.pending, o.symbol), o) + Copies(At(e.limits, o.symbol), o)
      == TimesFilled(more, o) + Copies(At(e'.pending, o.symbol), o) + Copies(At(e'.limits, o.symbol), o)
  {
    var e := Run(g).0;
    var market, limit := At(e.pending, symbol), At(e.limits, symbol);
    AllFilledCopies(market, price, o);
    TriggeredOrWaiting(limit, price, o);
    FilledConcat(AllFilled(market, price), Triggered(limit, price), o);
    if o.symbol != symbol {
      if o in market || o in limit {
        NothingFillableRests(g, symbol, o);
      }
      CopiesOfAbsent(market, o);
      CopiesOfAbsent(limit, o);
    }
  }

  lemma BookAppend(book: Book, x: Order, o: Order)
    ensures Copies(At(book[x.symbol := At(book, x.symbol) + [x]], o.symbol), o)
            == Copies(At(book, o.symbol), o) + (if x == o then 1 else 0)
  {
    if x.symbol == o.symbol {
      CopiesAppend(At(book, x.symbol), x, o);
    }
  }

  lemma OrderMoves(e: Engine, x: Order, o: Order)
    ensures var (e', more) := AfterOrder(e, x);
      Copies(At(e.pending, o.symbol), o) + Copies(At(e.limits, o.symbol), o) + (if x == o then 1 else 0)
      == TimesFilled(more, o) + Copies(At(e'.pending, o.symbol), o) + Copies(At(e'.limits, o.symbol), o)
  {
    if Fillable(x, Price(e, x.symbol)) {
      FilledAppend([], Fill(x, e.latest[x.symbol]), o);
      assert AfterOrder(e, x).1 == [] + [Fill(x, e.latest[x.symbol])];
    } else if x.kind.MARKET? {
      BookAppend(e.pending, x, o);
    } else {
      BookAppend(e.limits, x, o);
    }
  }

  /** Every time an order is received it is executed once or rests once: nothing is lost, nothing is doubled. */
  lemma {:induction false} ExecutedOrResting(h: seq<Message>, o: Order)
    ensures TimesReceived(h, o) ==
      TimesFilled(Run(h).1, o) + Copies(At(Run(h).0.pending, o.symbol), o) + Copies(At(Run(h).0.limits, o.symbol), o)
  {
    if h != [] {
      var g := h[..|h| - 1];
      ExecutedOrResting(g, o);
      var (e, fills) := Run(g);
      match h[|h| - 1] {
        case Tick(symbol, price) =>
          TickMoves(g, symbol, price, o);
          FilledConcat(fills, AfterTick(e, symbol, price).1, o);
        case NewOrder(x) =>
          OrderMoves(e, x, o);
          FilledConcat(fills, AfterOrder(e, x).1, o);
      }
    }
  }

  /** The price was in force for the symbol after some message of the stream. */
  ghost predicate Quoted(h: seq<Message>, symbol: string, price: real) {
    exists k :: 0 < k <= |h| && PriceAfter(h, k, symbol) == Some(price)
  }

  predicate AtLimitOrBetter(f: Fill) {
    f.order.kind.LIMIT? ==>
      if f.order.side.BUY? then f.price <= f.order.kind.price else f.price >= f.order.kind.price
  }

  /** The fills of a tick are at its price, and only of orders of its symbol. */
  lemma TickFills(g: seq<Message>, symbol: string, price: real, f: Fill)
    requires f in AfterTick(Run(g).0, symbol, price).1
    ensures f.order.symbol == symbol && f.price == price && AtLimitOrBetter(f)
  {
    var market, limit := At(Run(g).0.pending, symbol), At(Run(g).0.limits, symbol);
    BooksAreRestingOrders(g);
    RestingMembers(g, symbol, true, |g|);
    RestingMembers(g, symbol, false, |g|);
    TriggeredFillable(limit, price);
    if f !in Triggered(limit, price) {
      assert f in AllFilled(market, price);
      assert f.order in market;
    }
  }

  /** The fills the newest message of a stream causes. */
  function MessageFills(g: seq<Message>, m: Message): seq<Fill> {
    match m case Tick(s, p) => AfterTick(Run(g).0, s, p).1 case NewOrder(o) => AfterOrder(Run(g).0, o).1
  }

  /** The fills of the newest message are at the price it leaves in force. */
  lemma NewFills(g: seq<Message>, m: Message, f: Fill)
    requires f in MessageFills(g, m)
    ensures LastPrice(g + [m], f.order.symbol) == Some(f.price) && AtLimitOrBetter(f)
  {
    LastPriceNext(g, m, f.order.symbol);
    match m {
      case Tick(symbol, price) =>
        TickFills(g, symbol, price, f);
      case NewOrder(o) =>
        BooksAreRestingOrders(g);
        assert Price(Run(g).0, o.symbol) == LastPrice(g, o.symbol);
    }
  }

  /** Every fill is at a price in force for its symbol, never worse than the limit. */
  lemma {:induction false} FillsAtLimitOrBetter(h: seq<Message>, f: Fill)
    requires f in Run(h).1
    ensures Quoted(h, f.order.symbol, f.price) && AtLimitOrBetter(f)
  {
    var g, m := h[..|h| - 1], h[|h| - 1];
    assert h == g + [m];
    if f in Run(g).1 {
      FillsAtLimitOrBetter(g, f);
      var k :| 0 < k <= |g| && PriceAfter(g, k, f.order.symbol) == Some(f.price);
      SamePast(g, m, k, f.order.symbol);
    } else {
      NewFills(g, m, f);
    }
  }

  lemma {:induction false} CountedIsFilled(fills: seq<Fill>, f: Fill)
    requires f in fills
    ensures TimesFilled(fills, f.order) > 0
  {
    var n := |fills| - 1;
    if f in fills[..n] {
      CountedIsFilled(fills[..n], f);
    } else {
      assert fills == fills[..n] + [fills[n]];
    }
  }

  lemma {:induction false} CountedIsReceived(h: seq<Message>, o: Order)
    requires TimesReceived(h, o) > 0
    ensures NewOrder(o) in h
  {
    var n := |h| - 1;
    if h[n] != NewOrder(o) {
      CountedIsReceived(h[..n], o);
    }
  }

  lemma Received(h: seq<Message>, f: Fill)
    requires f in Run(h).1
    ensures NewOrder(f.order) in h
  {
    CountedIsFilled(Run(h).1, f);
    ExecutedOrResting(h, f.order);
    CountedIsReceived(h, f.order);
  }

  lemma FeeOfExecution(f: Fill)
    requires AtLimitOrBetter(f)
    ensures Executes(ExecutionOf(f), f.order) && ExecutionOf(f).price == f.price
  {
    hide Fee;
  }

  /** Every execution the engine ever sends executes an order it has received, at a price its symbol really had. */
  lemma ExecutionsAreTrue(h: seq<Message>, i: nat)
    requires i < |Executions(Run(h).1)|
    ensures var x := Executions(Run(h).1)[i];
      exists o :: NewOrder(o) in h && Executes(x, o) && Quoted(h, o.symbol, x.price)
  {
    hide Run, ExecutionOf, Executes, Quoted, AtLimitOrBetter;
    var f := Run(h).1[i];
    FillsAtLimitOrBetter(h, f);
    Received(h, f);
    FeeOfExecution(f);
  }

  /** And it sends them at the price in force once the message that causes them has been read. */
  lemma NewExecutionsAreTrue(g: seq<Message>, m: Message, i: nat)
    requires i < |Executions(MessageFills(g, m))|
    ensures var x := Executions(MessageFills(g, m))[i];
      exists o :: NewOrder(o) in g + [m] && Executes(x, o) && LastPrice(g + [m], o.symbol) == Some(x.price)
  {
    hide ExecutionOf, Executes, LastPrice, AtLimitOrBetter;
    var f := MessageFills(g, m)[i];
    NewFills(g, m, f);
    assert (g + [m])[..|g|] == g && f in Run(g + [m]).1;
    Received(g + [m], f);
    FeeOfExecution(f);
  }

  lemma {:induction false} TriggeredFillable(orders: seq<Order>, price: real)
    ensures forall f :: f in Triggered(orders, price) ==>
      f.order in orders && f.price == price && Fillable(f.order, Some(price))
  {
    if orders != [] {
      TriggeredFillable(orders[..|orders| - 1], price);
    }
  }

  function Announced(rows: seq<Order>): (r: seq<Message>)
    ensures |r| == |rows| && forall i :: 0 <= i < |r| ==> r[i] == NewOrder(rows[i])
  {
    seq(|rows|, i requires 0 <= i < |rows| => NewOrder(rows[i]))
  }

  /** A restart is indistinguishable from receiving the PENDING rows as the first messages. */
  lemma {:induction false} ReseedIsReplay(rows: seq<Order>)
    ensures Run(Announced(rows)) == (Reseed(rows), [])
    ensures Reseed(rows).latest == map[]
  {
    if rows != [] {
      var front := rows[..|rows| - 1];
      var h, o := Announced(rows), rows[|rows| - 1];
      ReseedIsReplay(front);
      assert h[..|h| - 1] == Announced(front) && h[|h| - 1] == NewOrder(o);
      assert Price(Reseed(front), o.symbol) == None;
      assert Run(h).0 == AfterOrder(Reseed(front), o).0;
      assert Run(h).1 == [] + AfterOrder(Reseed(front), o).1;
      assert AfterOrder(Reseed(front), o).0 == Reseed(rows);
    }
  }
}
