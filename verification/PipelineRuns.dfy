/** Concrete runs of the pipeline: what can really happen where a promise has an exception. */
module PipelineRuns {
  import opened Money
  import opened Schemas
  import opened Ledger
  import opened Matching
  import opened Pipeline

  ghost predicate Reaches(s: State, t: State) {
    exists steps :: Legal(s, steps) && After(s, steps) == t
  }

  lemma Onward(s: State, step: Step, s': State, t: State)
    requires Enabled(s, step) && Next(s, step) == s' && Reaches(s', t)
    ensures Reaches(s, t)
  {
    var rest :| Legal(s', rest) && After(s', rest) == t;
    assert ([step] + rest)[1..] == rest;
    assert Legal(s, [step] + rest) && After(s, [step] + rest) == t;
  }

  lemma Stays(t: State)
    ensures Reaches(t, t)
  {
    assert Legal(t, []) && After(t, []) == t;
  }

  lemma Selected(outbox: seq<OutboxRow>, relays: seq<Relay>, i: nat, n: nat)
    requires i <= |outbox| <= i + n
    requires forall k :: i <= k < |outbox| ==> !outbox[k].published && !Locked(relays, k)
    ensures Unpublished(outbox, relays, i, n) == seq(|outbox| - i, k requires 0 <= k < |outbox| - i => i + k)
    decreases |outbox| - i
  {
    if i < |outbox| {
      Selected(outbox, relays, i + 1, n - 1);
    }
  }

  // ----- A stopped engine holds nothing -----

  const WAITING_ORDER := Order(0, "account", "symbol", BUY, MARKET, 1.0)

  /** Nothing has happened yet; the engine may be down or up. */
  function Idle(up: bool): State {
    State(Tables(map[], [], [], map[], map[]), [Relay([], 0)], [], up, NO_ENGINE, [], 0, 0, [], 0, 0)
  }

  /** One order placed; the relay has it selected, delivered or not. */
  function Relaying(relay: Relay, log: seq<Order>, published: bool): State {
    State(Tables(map[0 := OrderRow(WAITING_ORDER, PENDING)], [OutboxRow(WAITING_ORDER, published)], [], map[], map[]),
          [relay], log, true, NO_ENGINE, [], 0, 0, [], 0, 0)
  }

  /** Up to the moment the relay has delivered the order and not yet marked it. */
  lemma DeliversTheOrder(t: State, n: nat)
    requires n == BATCH && Reaches(Relaying(Relay([0], 1), [WAITING_ORDER], false), t)
    ensures Reaches(Idle(false), t)
  {
    hide Reaches;
    var placed, selected := Relaying(Relay([], 0), [], false), Relaying(Relay([0], 0), [], false);
    Selected(placed.db.outbox, placed.relays, 0, n);
    assert Unpublished(placed.db.outbox, placed.relays, 0, n) == [0];
    Onward(selected, RelayDelivers(0), Relaying(Relay([0], 1), [WAITING_ORDER], false), t);
    Onward(placed, RelaySelects(0), selected, t);
    Onward(Idle(true), PlaceOrder(WAITING_ORDER), placed, t);
    Onward(Idle(false), EngineStarts([]), Idle(true), t);
  }

  lemma Marks(s: State, t: State)
    requires |s.relays| == 1 && s.relays[0] == Relay([0], 1) && s.db.outbox == [OutboxRow(WAITING_ORDER, false)]
    requires Reaches(s.(db := s.db.(outbox := [OutboxRow(WAITING_ORDER, true)]), relays := [Relay([], 0)]), t)
    ensures Reaches(s, t)
  {
    hide Reaches;
    assert Marked(s.db.outbox, [0]) == [OutboxRow(WAITING_ORDER, true)];
    assert s.relays[0 := Relay([], 0)] == [Relay([], 0)];
    Onward(s, RelayMarks(0), s.(db := s.db.(outbox := [OutboxRow(WAITING_ORDER, true)]), relays := [Relay([], 0)]), t);
  }

  /** The order is read into the empty books and an orderly stop commits past it. */
  lemma ReadAndStopped(s: State, t: State)
    requires s.engineUp && s.engine == NO_ENGINE && s.ordersLog == [WAITING_ORDER] && s.position == 0 && s.buffer == []
    requires Reaches(s.(position := 1, engineCommitted := 1, engineUp := false), t)
    ensures Reaches(s, t)
  {
    hide Reaches;
    var resting := s.(engine := Engine(map[], map["symbol" := [WAITING_ORDER]], map[]), position := 1);
    Onward(resting, EngineStops(0, true), s.(position := 1, engineCommitted := 1, engineUp := false), t);
    assert [] + [WAITING_ORDER] == [WAITING_ORDER];
    assert AfterOrder(NO_ENGINE, WAITING_ORDER) == (resting.engine, []);
    Onward(s, OrderArrives, resting, t);
  }

  /** While the engine is down the promise can fail: a market order of a symbol without a price rests in memory, an
      orderly stop commits past it, and the PENDING row is its only trace until the next start reads it. */
  lemma StoppedEngineCanForget() returns (t: State)
    ensures Initial(Idle(false)) && Reaches(Idle(false), t)
    ensures t.engineUp && NotLost(t, WAITING_ORDER)
    ensures Enabled(t, EngineStops(0, true)) && Pending(Next(t, EngineStops(0, true)).db, WAITING_ORDER)
    ensures !NotLost(Next(t, EngineStops(0, true)), WAITING_ORDER)
  {
    hide Reaches;
    var delivered := Relaying(Relay([0], 1), [WAITING_ORDER], false);
    var arrived := Relaying(Relay([], 0), [WAITING_ORDER], true);
    t := arrived.(engine := Engine(map[], map["symbol" := [WAITING_ORDER]], map[]), position := 1);
    Stays(t);
    assert [] + [WAITING_ORDER] == [WAITING_ORDER];
    assert AfterOrder(NO_ENGINE, WAITING_ORDER) == (t.engine, []);
    Onward(arrived, OrderArrives, t, t);
    Marks(delivered, t);
    DeliversTheOrder(t, BATCH);
  }

  /** A relay that was slow to mark takes the outbox row away after the engine has read the order and stopped. */
  lemma LateMarkCanForget() returns (t: State)
    ensures Initial(Idle(false)) && Reaches(Idle(false), t)
    ensures !t.engineUp && Pending(t.db, WAITING_ORDER) && NotLost(t, WAITING_ORDER)
    ensures Enabled(t, RelayMarks(0)) && !NotLost(Next(t, RelayMarks(0)), WAITING_ORDER)
  {
    hide Reaches;
    var delivered := Relaying(Relay([0], 1), [WAITING_ORDER], false);
    t := delivered.(position := 1, engineCommitted := 1, engineUp := false);
    Stays(t);
    ReadAndStopped(delivered, t);
    DeliversTheOrder(t, BATCH);
    assert t.db.outbox[0] == OutboxRow(WAITING_ORDER, false);
    assert Marked(t.db.outbox, [0]) == [OutboxRow(WAITING_ORDER, true)];
  }

  // ----- A rejected order is filled after all -----

  /** The account holds one "B" and no cash; it buys "A" and sells "B", in this order. */
  const PURCHASE := Order(0, "account", "A", BUY, MARKET, 1.0)
  const SALE := Order(1, "account", "B", SELL, MARKET, 1.0)
  const BOUGHT := Execution(Uuid5(0), 0, "account", "A", BUY, 1000.0, 1.0, 0.5)
  const SOLD := Execution(Uuid5(1), 1, "account", "B", SELL, 10000.0, 1.0, 5.0)

  /** The tables once both orders are placed. */
  function Tabled(published: bool, purchase: Status, sale: Status): Tables {
    Tables(map[0 := OrderRow(PURCHASE, purchase), 1 := OrderRow(SALE, sale)],
           [OutboxRow(PURCHASE, published), OutboxRow(SALE, published)],
           if sale.FILLED? then [SOLD] else [],
           map["account" := if sale.FILLED? then 9995.0 else 0.0],
           map[("account", "B") := Holding(if sale.FILLED? then 0.0 else 1.0, 1.0)])
  }

  const PRICED := Engine(map["A" := 1000.0, "B" := 10000.0], map[], map[])

  function Trading(db: Tables, relay: Relay, log: seq<Order>): State {
    State(db, [relay], log, true, PRICED, [], 0, 0, [], 0, 0)
  }

  /** Both executions delivered, the updater at an offset, its commits keeping up or one behind. */
  function Updating(db: Tables, applied: nat, committed: nat): State {
    Trading(db, Relay([], 0), [PURCHASE, SALE]).(position := 2, executionsLog := [BOUGHT, SOLD],
                                                 updaterPosition := applied, updaterCommitted := committed)
  }

  function Beginning(): State {
    State(Tables(map[], [], [], map["account" := 0.0], map[("account", "B") := Holding(1.0, 1.0)]),
          [Relay([], 0)], [], false, NO_ENGINE, [], 0, 0, [], 0, 0)
  }

  lemma Prices(e: Engine, symbol: string, price: real)
    requires e.pending == map[] && e.limits == map[]
    ensures AfterTick(e, symbol, price) == (Engine(e.latest[symbol := price], map[], map[]), [])
  {
    assert e.pending - {symbol} == map[];
    assert AllFilled([], price) + Triggered([], price) == [];
  }

  lemma BothExecute()
    ensures ExecutionOf(Fill(PURCHASE, 1000.0)) == BOUGHT && ExecutionOf(Fill(SALE, 10000.0)) == SOLD
  {
    assert OnGrid(0.5) && OnGrid(5.0);
  }

  lemma BeginsTrading(t: State)
    requires Reaches(Trading(Tabled(false, PENDING, PENDING), Relay([], 0), []), t)
    ensures Reaches(Beginning(), t)
  {
    hide Reaches;
    var s0 := Beginning();
    var s1 := s0.(engineUp := true);
    var s2 := s1.(engine := Engine(map["A" := 1000.0], map[], map[]));
    var s3 := s2.(engine := PRICED);
    var s4 := s3.(db := Place(s3.db, PURCHASE));
    Prices(NO_ENGINE, "A", 1000.0);
    Prices(s2.engine, "B", 10000.0);
    Onward(s4, PlaceOrder(SALE), Trading(Tabled(false, PENDING, PENDING), Relay([], 0), []), t);
    Onward(s3, PlaceOrder(PURCHASE), s4, t);
    Onward(s2, TickArrives("B", 10000.0), s3, t);
    Onward(s1, TickArrives("A", 1000.0), s2, t);
    Onward(s0, EngineStarts([]), s1, t);
  }

  lemma RelaysBoth(t: State, n: nat)
    requires n == BATCH && Reaches(Trading(Tabled(true, PENDING, PENDING), Relay([], 0), [PURCHASE, SALE]), t)
    ensures Reaches(Trading(Tabled(false, PENDING, PENDING), Relay([], 0), []), t)
  {
    hide Reaches;
    var db := Tabled(false, PENDING, PENDING);
    var placed := Trading(db, Relay([], 0), []);
    Selected(db.outbox, placed.relays, 0, n);
    assert Unpublished(db.outbox, placed.relays, 0, n) == [0, 1];
    assert Marked(db.outbox, [0, 1]) == Tabled(true, PENDING, PENDING).outbox;
    Onward(Trading(db, Relay([0, 1], 2), [PURCHASE, SALE]), RelayMarks(0),
           Trading(Tabled(true, PENDING, PENDING), Relay([], 0), [PURCHASE, SALE]), t);
    Onward(Trading(db, Relay([0, 1], 1), [PURCHASE]), RelayDelivers(0),
           Trading(db, Relay([0, 1], 2), [PURCHASE, SALE]), t);
    Onward(Trading(db, Relay([0, 1], 0), []), RelayDelivers(0), Trading(db, Relay([0, 1], 1), [PURCHASE]), t);
    Onward(placed, RelaySelects(0), Trading(db, Relay([0, 1], 0), []), t);
  }

  lemma DeliversBoth(t: State)
    requires Reaches(Updating(Tabled(true, PENDING, PENDING), 0, 0), t)
    ensures Reaches(Trading(Tabled(true, PENDING, PENDING), Relay([], 0), [PURCHASE, SALE]), t)
  {
    hide Reaches, ExecutionOf;
    BothExecute();
    var s0 := Trading(Tabled(true, PENDING, PENDING), Relay([], 0), [PURCHASE, SALE]);
    var s1 := s0.(buffer := [BOUGHT], position := 1);
    var s2 := s0.(buffer := [BOUGHT, SOLD], position := 2);
    Onward(s2, ProducerDelivers(2), Updating(Tabled(true, PENDING, PENDING), 0, 0), t);
    assert Executions([Fill(SALE, 10000.0)]) == [SOLD];
    Onward(s1, OrderArrives, s2, t);
    assert Executions([Fill(PURCHASE, 1000.0)]) == [BOUGHT];
    Onward(s0, OrderArrives, s1, t);
  }

  /** No cash for the purchase yet; the sale then brings it. */
  lemma AppliesBoth(t: State)
    requires Reaches(Updating(Tabled(true, REJECTED, FILLED), 2, 2), t)
    ensures Reaches(Updating(Tabled(true, PENDING, PENDING), 0, 0), t)
  {
    hide Reaches;
    var unpaid, rejected := Tabled(true, PENDING, PENDING), Tabled(true, REJECTED, PENDING);
    var paid := Tabled(true, REJECTED, FILLED);
    PurchaseWaits();
    SaleApplies();
    Onward(Updating(paid, 2, 1), UpdaterCommits, Updating(paid, 2, 2), t);
    Onward(Updating(rejected, 1, 1), UpdaterApplies, Updating(paid, 2, 1), t);
    Onward(Updating(rejected, 1, 0), UpdaterCommits, Updating(rejected, 1, 1), t);
    Onward(Updating(unpaid, 0, 0), UpdaterApplies, Updating(rejected, 1, 0), t);
  }

  lemma PurchaseWaits()
    ensures Apply(Tabled(true, PENDING, PENDING), BOUGHT) == (Tabled(true, REJECTED, PENDING), Rejected)
  {
    var db := Tabled(true, PENDING, PENDING);
    assert !Recorded(db, BOUGHT.id) && Cost(BOUGHT) == 1000.5;
    assert db.orders[0 := OrderRow(PURCHASE, REJECTED)] == Tabled(true, REJECTED, PENDING).orders;
  }

  lemma SaleApplies()
    ensures Apply(Tabled(true, REJECTED, PENDING), SOLD) == (Tabled(true, REJECTED, FILLED), Applied)
  {
    hide RoundHalfUp, OnGrid, Recorded;
    var db, paid := Tabled(true, REJECTED, PENDING), Tabled(true, REJECTED, FILLED);
    NothingRecorded(db);
    SaleMoney();
    assert KeysExist(db, SOLD) && db.executions + [SOLD] == [SOLD];
    assert db.orders[1 := OrderRow(SALE, FILLED)] == paid.orders;
    assert db.accounts["account" := 9995.0] == paid.accounts;
    assert db.positions[("account", "B") := Holding(0.0, 1.0)] == paid.positions;
  }

  lemma NothingRecorded(db: Tables)
    requires db.executions == []
    ensures !Recorded(db, Uuid5(0)) && !Recorded(db, Uuid5(1))
  {
  }

  lemma SaleMoney()
    ensures Stored(SOLD) == SOLD && Credited(0.0, SOLD) == 9995.0
  {
    assert OnGrid(5.0) && OnGrid(10000.0) && OnGrid(9995.0);
    assert Proceeds(SOLD) == 9995.0;
  }

  /** The engine, started again with nothing PENDING, reads the purchase once more. */
  lemma ReadsAgain(t: State)
    requires var paid := Updating(Tabled(true, REJECTED, FILLED), 2, 2);
      Reaches(paid.(engine := Engine(map["A" := 1000.0], map[], map[]), position := 1,
                    executionsLog := [BOUGHT, SOLD, BOUGHT]), t)
    ensures Reaches(Updating(Tabled(true, REJECTED, FILLED), 2, 2).(engine := NO_ENGINE, position := 0), t)
  {
    hide Reaches, ExecutionOf, Executions;
    var s2 := Updating(Tabled(true, REJECTED, FILLED), 2, 2).(engine := NO_ENGINE, position := 0);
    var s3 := s2.(engine := Engine(map["A" := 1000.0], map[], map[]));
    var s4 := s3.(buffer := [BOUGHT], position := 1);
    assert [BOUGHT, SOLD] + [BOUGHT][..1] == [BOUGHT, SOLD, BOUGHT] && [BOUGHT][1..] == [];
    Onward(s4, ProducerDelivers(1), s4.(buffer := [], executionsLog := [BOUGHT, SOLD, BOUGHT]), t);
    PurchaseExecutes();
    Onward(s3, OrderArrives, s4, t);
    Prices(NO_ENGINE, "A", 1000.0);
    assert Executions([]) == [];
    Onward(s2, TickArrives("A", 1000.0), s3, t);
  }

  lemma PurchaseExecutes()
    ensures Executions([Fill(PURCHASE, 1000.0)]) == [BOUGHT]
  {
    BothExecute();
  }

  /** The engine stops without committing, so that it reads both orders again. */
  lemma StartsAgain(t: State)
    requires Reaches(Updating(Tabled(true, REJECTED, FILLED), 2, 2).(engine := NO_ENGINE, position := 0), t)
    ensures Reaches(Updating(Tabled(true, REJECTED, FILLED), 2, 2), t)
  {
    hide Reaches;
    var s0 := Updating(Tabled(true, REJECTED, FILLED), 2, 2);
    var s1 := s0.(engineUp := false, engine := NO_ENGINE);
    var s2 := s0.(engine := NO_ENGINE, position := 0);
    Onward(s1, EngineStarts([]), s2, t);
    Onward(s0, EngineStops(0, false), s1, t);
  }

  /** A run in which an order is REJECTED for lack of cash, and one step later FILLED by a redelivered execution. */
  lemma RejectedIsFilledLater() returns (t: State)
    ensures Initial(Beginning()) && Reaches(Beginning(), t) && Enabled(t, UpdaterApplies)
    ensures t.db.orders.Keys == {0, 1} && t.db.orders[0] == OrderRow(PURCHASE, REJECTED)
    ensures Next(t, UpdaterApplies).db.orders[0] == OrderRow(PURCHASE, FILLED)
  {
    hide Reaches;
    var paid := Updating(Tabled(true, REJECTED, FILLED), 2, 2);
    t := paid.(engine := Engine(map["A" := 1000.0], map[], map[]), position := 1,
               executionsLog := [BOUGHT, SOLD, BOUGHT]);
    Stays(t);
    ReadsAgain(t);
    StartsAgain(t);
    AppliesBoth(t);
    DeliversBoth(t);
    RelaysBoth(t, BATCH);
    BeginsTrading(t);
    FilledNow(t.db);
  }

  lemma FilledNow(db: Tables)
    requires db == Tabled(true, REJECTED, FILLED)
    ensures Apply(db, BOUGHT).0.orders == db.orders[0 := OrderRow(PURCHASE, FILLED)] && Apply(db, BOUGHT).1.Applied?
  {
    BuyOutcome(db, BOUGHT);
    ApplyShape(db, BOUGHT);
  }
}
