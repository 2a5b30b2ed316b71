/** The order pipeline end to end: orders table and outbox, relay, orders log, engine, executions log, updater.
    Every process may stop between any two steps; logs keep what was delivered. */
module Pipeline {
  import opened Money
  import opened Schemas
  import opened Dict
  import opened Ledger
  import opened Matching

  const BATCH: nat := 100

  /** The memory of an engine that is not running. */
  const NO_ENGINE := Engine(map[], map[], map[])

  /** One relay instance: the outbox ids its transaction holds locked, and how many it has delivered. */
  datatype Relay = Relay(batch: seq<nat>, sent: nat)

  datatype State = State(
    db: Tables,
    relays: seq<Relay>,
    ordersLog: seq<Order>,
    engineUp: bool,
    engine: Engine,
    buffer: seq<Execution>,
    position: nat,
    engineCommitted: nat,
    executionsLog: seq<Execution>,
    updaterPosition: nat,
    updaterCommitted: nat)

  datatype Step =
    | PlaceOrder(order: Order)
    | RelaySelects(relay: nat)
    | RelayDelivers(relay: nat)
    | RelayMarks(relay: nat)
    | RelayCrashes(relay: nat)
    | TickArrives(symbol: string, price: real)
    | OrderArrives
    | ProducerDelivers(count: nat)
    | FlushAndCommit
    | EngineStops(delivered: nat, committed: bool)
    | EngineStarts(rows: seq<Order>)
    | UpdaterApplies
    | UpdaterCommits
    | UpdaterCrashes

  predicate Locked(relays: seq<Relay>, id: nat) {
    exists r :: 0 <= r < |relays| && id in relays[r].batch
  }

  /** SELECT ... WHERE NOT published ORDER BY id LIMIT n FOR UPDATE SKIP LOCKED, from id i on. */
  function Unpublished(outbox: seq<OutboxRow>, relays: seq<Relay>, i: nat, n: nat): (ids: seq<nat>)
    requires i <= |outbox|
    ensures forall k :: 0 <= k < |ids| ==> i <= ids[k] < |outbox|
    decreases |outbox| - i
  {
    if i == |outbox| || n == 0 then []
    else if !outbox[i].published && !Locked(relays, i) then [i] + Unpublished(outbox, relays, i + 1, n - 1)
    else Unpublished(outbox, relays, i + 1, n)
  }

  /** A row the relay may take: not published, and locked by nobody. */
  predicate Free(outbox: seq<OutboxRow>, relays: seq<Relay>, id: nat)
    requires id < |outbox|
  {
    !outbox[id].published && forall r :: 0 <= r < |relays| ==> id !in relays[r].batch
  }

  /** The batch is the oldest free rows: in id order, as many as allowed, and none passed over while there was room. */
  lemma {:induction false} OldestUnpublished(outbox: seq<OutboxRow>, relays: seq<Relay>, i: nat, n: nat)
    requires i <= |outbox|
    ensures var ids := Unpublished(outbox, relays, i, n);
      && |ids| <= n
      && (forall j, k :: 0 <= j < k < |ids| ==> ids[j] < ids[k])
      && (forall k :: 0 <= k < |ids| ==> Free(outbox, relays, ids[k]))
      && forall id :: i <= id < |outbox| && Free(outbox, relays, id) && id !in ids ==>
           |ids| == n && forall k :: 0 <= k < n ==> ids[k] < id
    decreases |outbox| - i
  {
    if i < |outbox| && n > 0 {
      var free := Free(outbox, relays, i);
      assert free <==> !outbox[i].published && !Locked(relays, i);
      assert Unpublished(outbox, relays, i, n)
          == if free then [i] + Unpublished(outbox, relays, i + 1, n - 1) else Unpublished(outbox, relays, i + 1, n);
      hide Free, Locked, Unpublished;
      OldestUnpublished(outbox, relays, i + 1, if free then n - 1 else n);
      var rest := Unpublished(outbox, relays, i + 1, if free then n - 1 else n);
      assert Unpublished(outbox, relays, i, n) == if free then [i] + rest else rest;
    } else {
      assert Unpublished(outbox, relays, i, n) == [];
    }
  }

  function Marked(outbox: seq<OutboxRow>, ids: seq<nat>): (r: seq<OutboxRow>)
    ensures |r| == |outbox|
    ensures forall i :: 0 <= i < |r| ==> r[i] == outbox[i].(published := outbox[i].published || i in ids)
  {
    seq(|outbox|, i requires 0 <= i < |outbox| => outbox[i].(published := outbox[i].published || i in ids))
  }

  /** The rows load_pending_orders reads: every PENDING order once, in any order. */
  ghost predicate PendingRows(db: Tables, rows: seq<Order>) {
    && (forall i :: 0 <= i < |rows| ==>
          rows[i].id in db.orders && db.orders[rows[i].id] == OrderRow(rows[i], PENDING))
    && (forall i, j :: 0 <= i < j < |rows| ==> rows[i].id != rows[j].id)
    && (forall o :: o in db.orders && db.orders[o].status.PENDING? ==> db.orders[o].order in rows)
  }

  ghost predicate Enabled(s: State, step: Step) {
    match step
    case PlaceOrder(o) => o.id !in s.db.orders
    case RelaySelects(r) => r < |s.relays| && s.relays[r].batch == []
    case RelayDelivers(r) => r < |s.relays| && s.relays[r].sent < |s.relays[r].batch|
                             && s.relays[r].batch[s.relays[r].sent] < |s.db.outbox|
    case RelayMarks(r) => r < |s.relays| && s.relays[r].sent == |s.relays[r].batch|
    case RelayCrashes(r) => r < |s.relays|
    case TickArrives(_, _) => s.engineUp
    case OrderArrives => s.engineUp && s.position < |s.ordersLog|
    case ProducerDelivers(n) => s.engineUp && n <= |s.buffer|
    case FlushAndCommit => s.engineUp
    case EngineStops(n, _) => s.engineUp && n <= |s.buffer|
    case EngineStarts(rows) => !s.engineUp && PendingRows(s.db, rows)
    case UpdaterApplies => s.updaterPosition == s.updaterCommitted < |s.executionsLog|
    case UpdaterCommits => s.updaterPosition > s.updaterCommitted
    case UpdaterCrashes => true
  }

  ghost function Next(s: State, step: Step): State
    requires Enabled(s, step)
  {
    match step
    case PlaceOrder(o) => s.(db := Place(s.db, o))
    case RelaySelects(r) => s.(relays := s.relays[r := Relay(Unpublished(s.db.outbox, s.relays, 0, BATCH), 0)])
    case RelayDelivers(r) =>
      var relay := s.relays[r];
      s.(ordersLog := s.ordersLog + [s.db.outbox[relay.batch[relay.sent]].payload],
         relays := s.relays[r := relay.(sent := relay.sent + 1)])
    case RelayMarks(r) =>
      s.(db := s.db.(outbox := Marked(s.db.outbox, s.relays[r].batch)), relays := s.relays[r := Relay([], 0)])
    case RelayCrashes(r) => s.(relays := s.relays[r := Relay([], 0)])
    case TickArrives(symbol, price) =>
      var (e, fills) := AfterTick(s.engine, symbol, price);
      s.(engine := e, buffer := s.buffer + Executions(fills))
    case OrderArrives =>
      var (e, fills) := AfterOrder(s.engine, s.ordersLog[s.position]);
      s.(engine := e, buffer := s.buffer + Executions(fills), position := s.position + 1)
    case ProducerDelivers(n) => s.(executionsLog := s.executionsLog + s.buffer[..n], buffer := s.buffer[n..])
    // flush() returns only when everything is delivered; the offset is committed after it.
    case FlushAndCommit =>
      s.(executionsLog := s.executionsLog + s.buffer, buffer := [], engineCommitted := s.position)
    // A crash commits nothing; an orderly stop gives the flush five seconds and commits whatever was delivered.
    case EngineStops(n, committed) =>
      s.(executionsLog := s.executionsLog + s.buffer[..n], buffer := [], engineUp := false, engine := NO_ENGINE,
         engineCommitted := if committed then s.position else s.engineCommitted)
    case EngineStarts(rows) => s.(engineUp := true, engine := Reseed(rows), position := s.engineCommitted)
    // An exception rolls the transaction back and ends the process before the offset moves.
    case UpdaterApplies =>
      var (db, outcome) := Apply(s.db, s.executionsLog[s.updaterPosition]);
      if outcome.Raised? then s
      else s.(db := db, updaterPosition := s.updaterPosition + 1)
    case UpdaterCommits => s.(updaterCommitted := s.updaterPosition)
    case UpdaterCrashes => s.(updaterPosition := s.updaterCommitted)
  }

  ghost predicate Legal(s: State, steps: seq<Step>)
    decreases |steps|
  {
    steps == [] || (Enabled(s, steps[0]) && Legal(Next(s, steps[0]), steps[1..]))
  }

  ghost function After(s: State, steps: seq<Step>): State
    requires Legal(s, steps)
    decreases |steps|
  {
    if steps == [] then s else After(Next(s, steps[0]), steps[1..])
  }

  /** Funded accounts and holdings, no orders yet, every process stopped. */
  ghost predicate Initial(s: State) {
    && NonNegative(s.db) && s.db.orders == map[] && s.db.outbox == [] && s.db.executions == []
    && s.ordersLog == [] && s.executionsLog == [] && s.buffer == [] && !s.engineUp && s.engine == NO_ENGINE
    && s.position == s.engineCommitted == s.updaterPosition == s.updaterCommitted == 0
    && (forall r :: 0 <= r < |s.relays| ==> s.relays[r] == Relay([], 0))
  }

  // ----- Where an order can be -----

  ghost predicate Pending(db: Tables, o: Order) {
    o.id in db.orders && db.orders[o.id] == OrderRow(o, PENDING)
  }

  predicate InBooks(e: Engine, o: Order) {
    o in At(e.pending, o.symbol) || o in At(e.limits, o.symbol)
  }

  /** Some execution of the order lies in the log at or after an offset. */
  ghost predicate ExecutedFrom(log: seq<Execution>, offset: nat, o: Order) {
    exists i :: offset <= i < |log| && log[i].order == o.id
  }

  /** Seen by the running engine: resting, or executed and not yet applied. */
  ghost predicate InEngine(s: State, o: Order) {
    InBooks(s.engine, o) || ExecutedFrom(s.buffer, 0, o) || ExecutedFrom(s.executionsLog, s.updaterPosition, o)
  }

  ghost predicate InLogFrom(log: seq<Order>, offset: nat, o: Order) {
    exists i :: offset <= i < |log| && log[i] == o
  }

  ghost predicate InOutbox(db: Tables, o: Order, published: bool) {
    exists i :: 0 <= i < |db.outbox| && db.outbox[i] == OutboxRow(o, published)
  }

  /** The promise of the pipeline: a PENDING order is always somewhere that leads to its execution. */
  ghost predicate NotLost(s: State, o: Order) {
    || InOutbox(s.db, o, false)
    || InLogFrom(s.ordersLog, s.engineCommitted, o)
    || InBooks(s.engine, o)
    || ExecutedFrom(s.buffer, 0, o)
    || ExecutedFrom(s.executionsLog, s.updaterCommitted, o)
  }

  // ----- The invariant -----

  ghost predicate Known(db: Tables, o: Order) {
    o.id in db.orders && db.orders[o.id].order == o
  }

  ghost predicate Genuine(db: Tables, ex: Execution) {
    && ex.id == Uuid5(ex.order) && ex.order in db.orders
    && var o := db.orders[ex.order].order;
       ex.account == o.account && ex.symbol == o.symbol && ex.side == o.side && ex.quantity == o.quantity
  }

  ghost predicate AllKnown(db: Tables, orders: seq<Order>) {
    forall i :: 0 <= i < |orders| ==> Known(db, orders[i])
  }

  ghost predicate AllGenuine(db: Tables, xs: seq<Execution>) {
    forall i :: 0 <= i < |xs| ==> Genuine(db, xs[i])
  }

  ghost predicate BooksKnown(db: Tables, e: Engine) {
    forall symbol, o :: o in At(e.pending, symbol) || o in At(e.limits, symbol) ==> o.symbol == symbol && Known(db, o)
  }

  ghost predicate TablesOk(s: State) {
    && WellKept(s.db)
    && (forall o :: o in s.db.orders ==> s.db.orders[o].order.id == o)
    && (forall o :: o in s.db.orders ==> InOutbox(s.db, s.db.orders[o].order, false)
                                         || InOutbox(s.db, s.db.orders[o].order, true))
    && (forall i :: 0 <= i < |s.db.outbox| ==> Known(s.db, s.db.outbox[i].payload))
  }

  ghost predicate RelaysOk(s: State) {
    && (forall i :: 0 <= i < |s.db.outbox| && s.db.outbox[i].published ==> s.db.outbox[i].payload in s.ordersLog)
    && (forall r :: 0 <= r < |s.relays| ==>
          s.relays[r].sent <= |s.relays[r].batch|
          && forall j :: 0 <= j < |s.relays[r].batch| ==>
               s.relays[r].batch[j] < |s.db.outbox|
               && (j < s.relays[r].sent ==> s.db.outbox[s.relays[r].batch[j]].payload in s.ordersLog))
  }

  ghost predicate EngineOk(s: State) {
    && s.engineCommitted <= |s.ordersLog|
    && AllKnown(s.db, s.ordersLog) && AllGenuine(s.db, s.buffer) && AllGenuine(s.db, s.executionsLog)
    && (!s.engineUp ==> s.engine == NO_ENGINE && s.buffer == [])
    && (s.engineUp ==>
          && s.engineCommitted <= s.position <= |s.ordersLog|
          && BooksKnown(s.db, s.engine)
          && forall i :: 0 <= i < s.position && Pending(s.db, s.ordersLog[i]) ==> InEngine(s, s.ordersLog[i]))
  }

  ghost predicate Inv(s: State) {
    TablesOk(s) && RelaysOk(s) && EngineOk(s)
    && s.updaterCommitted <= s.updaterPosition <= |s.executionsLog|
  }

  // ----- One step at a time -----

  lemma PlaceKeepsTables(s: State, o: Order)
    requires TablesOk(s) && o.id !in s.db.orders
    ensures TablesOk(s.(db := Place(s.db, o)))
    ensures forall x :: Known(s.db, x) ==> Known(Place(s.db, o), x)
    ensures forall ex :: Genuine(s.db, ex) ==> Genuine(Place(s.db, o), ex)
    ensures forall x :: Known(s.db, x) && Pending(Place(s.db, o), x) ==> Pending(s.db, x)
  {
    var db, db' := s.db, Place(s.db, o);
    assert db'.outbox[|db.outbox|] == OutboxRow(o, false);
    assert !Recorded(db, Uuid5(o.id));
    forall x | x in db'.orders
      ensures InOutbox(db', db'.orders[x].order, false) || InOutbox(db', db'.orders[x].order, true)
      ensures db'.orders[x].status.FILLED? <==> Recorded(db', Uuid5(x))
    {
      assert Recorded(db', Uuid5(x)) <==> Recorded(db, Uuid5(x));
      if x != o.id {
        var p := !InOutbox(db, db.orders[x].order, false);
        var i :| 0 <= i < |db.outbox| && db.outbox[i] == OutboxRow(db.orders[x].order, p);
        assert db'.outbox[i] == OutboxRow(db'.orders[x].order, p);
      }
    }
  }

  lemma PlaceKeepsRelays(s: State, o: Order)
    requires RelaysOk(s)
    ensures RelaysOk(s.(db := Place(s.db, o)))
  {
    var s' := s.(db := Place(s.db, o));
    assert forall i :: 0 <= i < |s.db.outbox| ==> s'.db.outbox[i] == s.db.outbox[i];
  }

  lemma PlaceKeepsEngine(s: State, o: Order)
    requires TablesOk(s) && EngineOk(s) && o.id !in s.db.orders
    ensures EngineOk(s.(db := Place(s.db, o)))
  {
    hide TablesOk;
    PlaceKeepsTables(s, o);
    var s' := s.(db := Place(s.db, o));
    forall i | s.engineUp && 0 <= i < s.position && Pending(s'.db, s.ordersLog[i])
      ensures InEngine(s', s.ordersLog[i])
    {
      assert InEngine(s, s.ordersLog[i]);
    }
  }

  lemma PlaceKeeps(s: State, o: Order)
    requires Inv(s) && Enabled(s, PlaceOrder(o))
    ensures Inv(Next(s, PlaceOrder(o)))
  {
    hide TablesOk, RelaysOk, EngineOk, Place;
    PlaceKeepsTables(s, o);
    PlaceKeepsRelays(s, o);
    PlaceKeepsEngine(s, o);
  }

  /** Relay bookkeeping is invisible to the tables and to the engine. */
  lemma RelaysAside(s: State, relays: seq<Relay>)
    requires TablesOk(s) && EngineOk(s)
    ensures TablesOk(s.(relays := relays)) && EngineOk(s.(relays := relays))
  {
    var s' := s.(relays := relays);
    forall i | s.engineUp && 0 <= i < s.position && Pending(s.db, s.ordersLog[i])
      ensures InEngine(s', s.ordersLog[i])
    {
      assert InEngine(s, s.ordersLog[i]);
    }
  }

  /** One more known order at the end of the log is not yet the engine's business. */
  lemma LogGrows(s: State, x: Order)
    requires TablesOk(s) && EngineOk(s) && Known(s.db, x)
    ensures var s' := s.(ordersLog := s.ordersLog + [x]); TablesOk(s') && EngineOk(s')
  {
    var s' := s.(ordersLog := s.ordersLog + [x]);
    forall i | s.engineUp && 0 <= i < s.position && Pending(s.db, s'.ordersLog[i])
      ensures InEngine(s', s'.ordersLog[i])
    {
      assert InEngine(s, s.ordersLog[i]);
    }
  }

  lemma DeliveryKeepsRelays(s: State, r: nat)
    requires RelaysOk(s) && Enabled(s, RelayDelivers(r))
    ensures RelaysOk(Next(s, RelayDelivers(r)))
  {
    var s' := Next(s, RelayDelivers(r));
    var x := s.db.outbox[s.relays[r].batch[s.relays[r].sent]].payload;
    assert s'.ordersLog[|s.ordersLog|] == x;
    forall o | o in s.ordersLog
      ensures o in s'.ordersLog
    {
      var i :| 0 <= i < |s.ordersLog| && s.ordersLog[i] == o;
      assert s'.ordersLog[i] == o;
    }
  }

  lemma RelayKeeps(s: State, step: Step)
    requires Inv(s) && Enabled(s, step)
    requires step.RelaySelects? || step.RelayDelivers? || step.RelayCrashes?
    ensures Inv(Next(s, step))
  {
    hide TablesOk, EngineOk;
    var s' := Next(s, step);
    if step.RelayDelivers? {
      var relay := s.relays[step.relay];
      var x := s.db.outbox[relay.batch[relay.sent]].payload;
      PayloadKnown(s, relay.batch[relay.sent]);
      LogGrows(s, x);
      RelaysAside(s.(ordersLog := s.ordersLog + [x]), s'.relays);
      DeliveryKeepsRelays(s, step.relay);
    } else {
      RelaysAside(s, s'.relays);
    }
  }

  lemma PayloadKnown(s: State, i: nat)
    requires TablesOk(s) && i < |s.db.outbox|
    ensures Known(s.db, s.db.outbox[i].payload)
  {
  }

  lemma MarkKeepsTables(s: State, ids: seq<nat>)
    requires TablesOk(s)
    ensures TablesOk(s.(db := s.db.(outbox := Marked(s.db.outbox, ids))))
  {
    var db, db' := s.db, s.db.(outbox := Marked(s.db.outbox, ids));
    forall x | x in db.orders
      ensures InOutbox(db', db.orders[x].order, false) || InOutbox(db', db.orders[x].order, true)
      ensures Recorded(db', Uuid5(x)) <==> Recorded(db, Uuid5(x))
    {
      var p := !InOutbox(db, db.orders[x].order, false);
      var i :| 0 <= i < |db.outbox| && db.outbox[i] == OutboxRow(db.orders[x].order, p);
      assert db'.outbox[i] == OutboxRow(db.orders[x].order, p || i in ids);
    }
  }

  lemma MarkKeepsRelays(s: State, r: nat)
    requires RelaysOk(s) && Enabled(s, RelayMarks(r))
    ensures RelaysOk(Next(s, RelayMarks(r)))
  {
    var ids := s.relays[r].batch;
    forall i | 0 <= i < |s.db.outbox| && i in ids
      ensures s.db.outbox[i].payload in s.ordersLog
    {
      var j :| 0 <= j < |ids| && ids[j] == i;
    }
    var s' := Next(s, RelayMarks(r));
    forall q | 0 <= q < |s'.relays|
      ensures s'.relays[q] == Relay([], 0) || s'.relays[q] == s.relays[q]
    {
    }
  }

  /** Tables with the same orders and statuses leave the engine's view unchanged. */
  lemma SameOrdersKeepEngine(s: State, db': Tables, relays': seq<Relay>)
    requires EngineOk(s) && db'.orders == s.db.orders
    ensures EngineOk(s.(db := db', relays := relays'))
  {
    var s' := s.(db := db', relays := relays');
    assert forall o :: Known(s.db, o) <==> Known(db', o);
    assert forall x :: Genuine(s.db, x) <==> Genuine(db', x);
    assert forall o :: Pending(s.db, o) <==> Pending(db', o);
    assert forall o :: InEngine(s, o) <==> InEngine(s', o);
  }

  lemma MarkKeeps(s: State, r: nat)
    requires Inv(s) && Enabled(s, RelayMarks(r))
    ensures Inv(Next(s, RelayMarks(r)))
  {
    var ids := s.relays[r].batch;
    MarkKeepsTables(s, ids);
    MarkKeepsRelays(s, r);
    SameOrdersKeepEngine(s, s.db.(outbox := Marked(s.db.outbox, ids)), s.relays[r := Relay([], 0)]);
  }

  /** A message moves orders out of the books only into fills, and fills only known orders. */
  lemma TickTransfers(db: Tables, e: Engine, symbol: string, price: real)
    requires BooksKnown(db, e)
    ensures var (e', fills) := AfterTick(e, symbol, price);
      && BooksKnown(db, e')
      && (forall f :: f in fills ==> Known(db, f.order))
      && (forall o :: InBooks(e, o) ==> InBooks(e', o) || Fill(o, price) in fills)
  {
    var market, limit := At(e.pending, symbol), At(e.limits, symbol);
    var e' := AfterTick(e, symbol, price).0;
    WaitingIsSubset(limit, price);
    forall s, o | o in At(e'.pending, s) || o in At(e'.limits, s)
      ensures o.symbol == s && Known(db, o)
    {
      assert o in At(e.pending, s) || o in At(e.limits, s);
    }
    forall o | InBooks(e, o)
      ensures InBooks(AfterTick(e, symbol, price).0, o) || Fill(o, price) in AfterTick(e, symbol, price).1
    {
      if o.symbol == symbol && o in market {
        var i :| 0 <= i < |market| && market[i] == o;
        assert AllFilled(market, price)[i] == Fill(o, price);
      }
    }
  }

  lemma OrderTransfers(db: Tables, e: Engine, x: Order)
    requires BooksKnown(db, e) && Known(db, x)
    ensures var (e', fills) := AfterOrder(e, x);
      && BooksKnown(db, e')
      && (forall f :: f in fills ==> f.order == x)
      && (forall o :: InBooks(e, o) ==> InBooks(e', o))
      && (InBooks(e', x) || fills != [])
  {
  }

  lemma EngineMoves(s: State, e: Engine, fills: seq<Fill>, position: nat)
    requires Inv(s) && s.engineUp && s.position <= position <= |s.ordersLog|
    requires BooksKnown(s.db, e)
    requires forall f :: f in fills ==> Known(s.db, f.order)
    requires forall o :: InBooks(s.engine, o) ==> InBooks(e, o) || exists i :: 0 <= i < |fills| && fills[i].order == o
    requires forall i :: s.position <= i < position ==>
      InBooks(e, s.ordersLog[i]) || exists j :: 0 <= j < |fills| && fills[j].order == s.ordersLog[i]
    ensures Inv(s.(engine := e, buffer := s.buffer + Executions(fills), position := position))
  {
    var s' := s.(engine := e, buffer := s.buffer + Executions(fills), position := position);
    forall i | 0 <= i < |s'.buffer|
      ensures Genuine(s.db, s'.buffer[i])
    {
      if i >= |s.buffer| {
        assert fills[i - |s.buffer|] in fills;
      }
    }
    forall i | 0 <= i < position && Pending(s.db, s.ordersLog[i])
      ensures InEngine(s', s.ordersLog[i])
    {
      var o := s.ordersLog[i];
      if i < s.position && ExecutedFrom(s.buffer, 0, o) {
        var k :| 0 <= k < |s.buffer| && s.buffer[k].order == o.id;
        assert s'.buffer[k].order == o.id;
      } else if j :| 0 <= j < |fills| && fills[j].order == o {
        assert s'.buffer[|s.buffer| + j].order == o.id;
      }
    }
  }

  lemma TickKeeps(s: State, symbol: string, price: real)
    requires Inv(s) && Enabled(s, TickArrives(symbol, price))
    ensures Inv(Next(s, TickArrives(symbol, price)))
  {
    TickTransfers(s.db, s.engine, symbol, price);
    var (e, fills) := AfterTick(s.engine, symbol, price);
    forall o | InBooks(s.engine, o)
      ensures InBooks(e, o) || exists i :: 0 <= i < |fills| && fills[i].order == o
    {
      if !InBooks(e, o) {
        var i :| 0 <= i < |fills| && fills[i] == Fill(o, price);
      }
    }
    EngineMoves(s, e, fills, s.position);
  }

  lemma OrderKeeps(s: State)
    requires Inv(s) && Enabled(s, OrderArrives)
    ensures Inv(Next(s, OrderArrives))
  {
    var x := s.ordersLog[s.position];
    OrderTransfers(s.db, s.engine, x);
    var (e, fills) := AfterOrder(s.engine, x);
    if fills != [] {
      assert fills[0] in fills;
    }
    EngineMoves(s, e, fills, s.position + 1);
  }

  /** Delivering a prefix of the buffer, keeping the rest. */
  lemma DeliveryKeeps(s: State, n: nat)
    requires Inv(s) && s.engineUp && n <= |s.buffer|
    ensures Inv(s.(executionsLog := s.executionsLog + s.buffer[..n], buffer := s.buffer[n..]))
  {
    var s' := s.(executionsLog := s.executionsLog + s.buffer[..n], buffer := s.buffer[n..]);
    var m := |s.executionsLog|;
    forall i | 0 <= i < s.position && Pending(s.db, s.ordersLog[i])
      ensures InEngine(s', s.ordersLog[i])
    {
      var o := s.ordersLog[i];
      if ExecutedFrom(s.buffer, 0, o) {
        var k :| 0 <= k < |s.buffer| && s.buffer[k].order == o.id;
        if k < n {
          assert s'.executionsLog[m + k].order == o.id;
        } else {
          assert s'.buffer[k - n].order == o.id;
        }
      } else if ExecutedFrom(s.executionsLog, s.updaterPosition, o) {
        var k :| s.updaterPosition <= k < m && s.executionsLog[k].order == o.id;
        assert s'.executionsLog[k].order == o.id;
      }
    }
  }

  lemma StopKeeps(s: State, n: nat, committed: bool)
    requires Inv(s) && Enabled(s, EngineStops(n, committed))
    ensures Inv(Next(s, EngineStops(n, committed)))
  {
  }

  lemma BookGains(book: Book, x: Order, s: string, o: Order)
    ensures o in At(book[x.symbol := At(book, x.symbol) + [x]], s) <==> o in At(book, s) || (o == x && s == x.symbol)
  {
  }

  lemma {:induction false} ReseedHolds(rows: seq<Order>)
    ensures forall o :: InBooks(Reseed(rows), o) <==> o in rows
    ensures forall s, o :: o in At(Reseed(rows).pending, s) || o in At(Reseed(rows).limits, s) ==>
      o.symbol == s && o in rows
  {
    if rows != [] {
      var front, x := rows[..|rows| - 1], rows[|rows| - 1];
      ReseedHolds(front);
      assert rows == front + [x];
      forall s, o
        ensures o in At(Reseed(rows).pending, s) || o in At(Reseed(rows).limits, s)
                <==> o in At(Reseed(front).pending, s) || o in At(Reseed(front).limits, s) || (o == x && s == x.symbol)
      {
        BookGains(Reseed(front).pending, x, s, o);
        BookGains(Reseed(front).limits, x, s, o);
      }
    }
  }

  lemma StartKeeps(s: State, rows: seq<Order>)
    requires Inv(s) && Enabled(s, EngineStarts(rows))
    ensures Inv(Next(s, EngineStarts(rows)))
  {
    var s' := Next(s, EngineStarts(rows));
    ReseedHolds(rows);
    assert BooksKnown(s.db, s'.engine) by {
      assert forall o :: o in rows ==> Known(s.db, o);
    }
    assert forall o :: Pending(s.db, o) ==> InBooks(s'.engine, o);
    assert TablesOk(s') && RelaysOk(s');
  }

  /** Applying changes statuses, never orders or the outbox. */
  lemma ApplyKeepsOrders(db: Tables, ex: Execution)
    ensures var db' := Apply(db, ex).0;
      && db'.outbox == db.outbox && db'.orders.Keys == db.orders.Keys
      && (forall o :: o in db.orders ==> db'.orders[o].order == db.orders[o].order)
      && (forall o :: Known(db, o) ==> Known(db', o))
      && (forall x :: Genuine(db, x) ==> Genuine(db', x))
      && (forall o, p :: InOutbox(db', o, p) <==> InOutbox(db, o, p))
  {
    ApplyShape(db, ex);
    var db' := Apply(db, ex).0;
    assert db'.outbox == db.outbox;
    assert forall o, p :: InOutbox(db', o, p) <==> InOutbox(db, o, p);
  }

  lemma ApplyKeeps(s: State)
    requires Inv(s) && Enabled(s, UpdaterApplies)
    ensures Inv(Next(s, UpdaterApplies))
  {
    var ex := s.executionsLog[s.updaterPosition];
    var (db', outcome) := Apply(s.db, ex);
    if !outcome.Raised? {
      assert Genuine(s.db, ex);
      ApplyKeepsWellKept(s.db, ex);
      ApplyKeepsOrders(s.db, ex);
      forall i | s.engineUp && 0 <= i < s.position && Pending(db', s.ordersLog[i])
        ensures InEngine(Next(s, UpdaterApplies), s.ordersLog[i])
      {
        AppliedOrderIsSettled(s, ex, s.ordersLog[i]);
      }
      AppliedTables(s, db', s.updaterPosition + 1);
    }
  }

  lemma AppliedTables(s: State, db': Tables, position: nat)
    requires Inv(s) && WellKept(db') && s.updaterCommitted <= position <= |s.executionsLog|
    requires db'.outbox == s.db.outbox && db'.orders.Keys == s.db.orders.Keys
    requires forall o :: o in s.db.orders ==> db'.orders[o].order == s.db.orders[o].order
    requires forall i :: s.engineUp && 0 <= i < s.position && Pending(db', s.ordersLog[i]) ==>
      InEngine(s.(db := db', updaterPosition := position), s.ordersLog[i])
    ensures Inv(s.(db := db', updaterPosition := position))
  {
    assert forall o :: Known(s.db, o) ==> Known(db', o);
    assert forall x :: Genuine(s.db, x) ==> Genuine(db', x);
    assert forall o, p :: InOutbox(s.db, o, p) ==> InOutbox(db', o, p);
  }

  /** Once the updater has handled an execution, its order is no longer PENDING. */
  lemma AppliedOrderIsSettled(s: State, ex: Execution, o: Order)
    requires Inv(s) && Enabled(s, UpdaterApplies) && ex == s.executionsLog[s.updaterPosition]
    requires !Apply(s.db, ex).1.Raised? && Pending(Apply(s.db, ex).0, o) && Known(s.db, o)
    ensures Pending(s.db, o)
    ensures InEngine(s, o) ==> InEngine(s.(db := Apply(s.db, ex).0, updaterPosition := s.updaterPosition + 1), o)
  {
    ApplyShape(s.db, ex);
    ApplyStatus(s.db, ex, o.id);
    assert Genuine(s.db, ex);
    assert Apply(s.db, ex).1.Duplicate? ==> Recorded(s.db, Uuid5(ex.order));
    if ExecutedFrom(s.executionsLog, s.updaterPosition, o) {
      var k :| s.updaterPosition <= k < |s.executionsLog| && s.executionsLog[k].order == o.id;
      assert k != s.updaterPosition;
    }
  }

  lemma UpdaterKeeps(s: State, step: Step)
    requires Inv(s) && Enabled(s, step) && (step.UpdaterCommits? || step.UpdaterCrashes?)
    ensures Inv(Next(s, step))
  {
    var s' := Next(s, step);
    forall i | s.engineUp && 0 <= i < s.position && Pending(s.db, s.ordersLog[i])
      ensures InEngine(s', s.ordersLog[i])
    {
      var o := s.ordersLog[i];
      if ExecutedFrom(s.executionsLog, s.updaterPosition, o) {
        var k :| s.updaterPosition <= k < |s.executionsLog| && s.executionsLog[k].order == o.id;
        assert s'.updaterPosition <= k;
      }
    }
  }

  lemma StepKeeps(s: State, step: Step)
    requires Inv(s) && Enabled(s, step)
    ensures Inv(Next(s, step))
  {
    match step
    case PlaceOrder(o) => PlaceKeeps(s, o);
    case RelaySelects(_) => RelayKeeps(s, step);
    case RelayDelivers(_) => RelayKeeps(s, step);
    case RelayMarks(r) => MarkKeeps(s, r);
    case RelayCrashes(_) => RelayKeeps(s, step);
    case TickArrives(symbol, price) => TickKeeps(s, symbol, price);
    case OrderArrives => OrderKeeps(s);
    case ProducerDelivers(n) => DeliveryKeeps(s, n);
    case FlushAndCommit =>
      DeliveryKeeps(s, |s.buffer|);
      assert s.buffer[..|s.buffer|] == s.buffer && s.buffer[|s.buffer|..] == [];
    case EngineStops(n, committed) => StopKeeps(s, n, committed);
    case EngineStarts(rows) => StartKeeps(s, rows);
    case UpdaterApplies => ApplyKeeps(s);
    case UpdaterCommits => UpdaterKeeps(s, step);
    case UpdaterCrashes => UpdaterKeeps(s, step);
  }

  lemma MoneyKeeps(start: Tables, s: State, step: Step)
    requires Enabled(s, step) && NonNegative(s.db) && Conserved(start, s.db)
    ensures NonNegative(Next(s, step).db) && Conserved(start, Next(s, step).db)
  {
    if step.UpdaterApplies? {
      var ex := s.executionsLog[s.updaterPosition];
      ApplyKeepsNonNegative(s.db, ex);
      ApplyConserves(start, s.db, ex);
    } else {
      var db, db' := s.db, Next(s, step).db;
      assert db'.accounts == db.accounts && db'.positions == db.positions && db'.executions == db.executions;
    }
  }

  // ----- Every run -----

  lemma {:induction false} RunKeeps(start: Tables, s: State, steps: seq<Step>)
    requires Legal(s, steps) && Inv(s) && NonNegative(s.db) && Conserved(start, s.db)
    ensures Inv(After(s, steps)) && NonNegative(After(s, steps).db) && Conserved(start, After(s, steps).db)
    decreases |steps|
  {
    if steps != [] {
      StepKeeps(s, steps[0]);
      MoneyKeeps(start, s, steps[0]);
      RunKeeps(start, Next(s, steps[0]), steps[1..]);
    }
  }

  lemma InitialHolds(s: State)
    requires Initial(s)
    ensures Inv(s) && NonNegative(s.db) && Conserved(s.db, s.db)
  {
  }

  /** Whatever crashes, republications, restarts and redeliveries a run contains: one execution row per order,
      FILLED exactly when the row exists, no negative balance, and balances explained by the rows alone. */
  lemma EveryRunIsSafe(s: State, steps: seq<Step>)
    requires Initial(s) && Legal(s, steps)
    ensures var db := After(s, steps).db;
      && (forall i, j :: 0 <= i < j < |db.executions| ==> db.executions[i].order != db.executions[j].order)
      && (forall o :: o in db.orders ==>
            (db.orders[o].status.FILLED? <==> exists i :: 0 <= i < |db.executions| && db.executions[i].order == o))
      && NonNegative(db)
      && Conserved(s.db, db)
  {
    InitialHolds(s);
    RunKeeps(s.db, s, steps);
    var db := After(s, steps).db;
    forall o | o in db.orders
      ensures Recorded(db, Uuid5(o)) <==> exists i :: 0 <= i < |db.executions| && db.executions[i].order == o
    {
      if Recorded(db, Uuid5(o)) {
        var i :| 0 <= i < |db.executions| && db.executions[i].id == Uuid5(o);
        assert db.executions[i].order == o;
      }
    }
  }

  lemma FoundWhileUp(t: State, o: Order)
    requires Inv(t) && t.engineUp && Pending(t.db, o)
    ensures NotLost(t, o)
    ensures InOutbox(t.db, o, false) || InLogFrom(t.ordersLog, t.position, o) || InEngine(t, o)
  {
    assert TablesOk(t);
    if !InOutbox(t.db, o, false) {
      var i :| 0 <= i < |t.db.outbox| && t.db.outbox[i] == OutboxRow(o, true);
      var k :| 0 <= k < |t.ordersLog| && t.ordersLog[k] == o;
      if k < t.position {
        assert Pending(t.db, t.ordersLog[k]);
      } else {
        assert InLogFrom(t.ordersLog, t.engineCommitted, o);
      }
    }
  }

  // ----- What a stop loses -----

  /** The outbox row, or a log entry the next start reads again, would bring the order back. */
  ghost predicate Returns(db: Tables, log: seq<Order>, committed: nat, o: Order) {
    InOutbox(db, o, false) || InLogFrom(log, committed, o)
  }

  /** In every reachable state a PENDING order is safe exactly when the engine runs, or its outbox row, a log entry from
      the committed offset on, or an execution the updater has not committed leads back to it: while the engine runs no
      order is ever lost, and while it is down nothing else holds one. */
  lemma NoPendingOrderIsLost(s: State, steps: seq<Step>, o: Order)
    requires Initial(s) && Legal(s, steps) && Pending(After(s, steps).db, o)
    ensures var t := After(s, steps);
      NotLost(t, o) <==> t.engineUp || Returns(t.db, t.ordersLog, t.engineCommitted, o)
                         || ExecutedFrom(t.executionsLog, t.updaterCommitted, o)
  {
    InitialHolds(s);
    RunKeeps(s.db, s, steps);
    var t := After(s, steps);
    if t.engineUp {
      FoundWhileUp(t, o);
    } else {
      NothingHeld(t, o);
    }
  }

  lemma NothingHeld(t: State, o: Order)
    requires EngineOk(t) && !t.engineUp
    ensures !InBooks(t.engine, o) && !ExecutedFrom(t.buffer, 0, o)
  {
  }

  lemma ExecutedSplit(log: seq<Execution>, buffer: seq<Execution>, n: nat, offset: nat, o: Order)
    requires n <= |buffer| && offset <= |log|
    ensures ExecutedFrom(buffer, 0, o) <==> ExecutedFrom(buffer[..n], 0, o) || ExecutedFrom(buffer[n..], 0, o)
    ensures ExecutedFrom(log + buffer[..n], offset, o) <==>
            ExecutedFrom(log, offset, o) || ExecutedFrom(buffer[..n], 0, o)
  {
    var all := log + buffer[..n];
    if i :| 0 <= i < |buffer| && buffer[i].order == o.id {
      assert if i < n then buffer[..n][i].order == o.id else buffer[n..][i - n].order == o.id;
    }
    if i :| 0 <= i < |buffer[..n]| && buffer[..n][i].order == o.id {
      assert buffer[i].order == o.id && all[|log| + i].order == o.id;
    }
    if i :| 0 <= i < |buffer[n..]| && buffer[n..][i].order == o.id {
      assert buffer[n + i].order == o.id;
    }
    if i :| offset <= i < |log| && log[i].order == o.id {
      assert all[i].order == o.id;
    }
    if i :| offset <= i < |all| && all[i].order == o.id {
      assert if i < |log| then log[i].order == o.id else buffer[..n][i - |log|].order == o.id;
    }
  }

  /** After any run, a stop that delivers n executions loses a PENDING order exactly when the engine held it, resting
      or as an execution beyond those n, and neither the outbox, nor the log from the offset the stop leaves
      committed, nor a delivered and uncommitted execution leads back to it. */
  lemma StopLosesExactly(s: State, steps: seq<Step>, n: nat, committed: bool, o: Order)
    requires Initial(s) && Legal(s, steps) && Enabled(After(s, steps), EngineStops(n, committed))
    requires Pending(After(s, steps).db, o)
    ensures var t := After(s, steps);
      !NotLost(Next(t, EngineStops(n, committed)), o) <==>
        (InBooks(t.engine, o) || ExecutedFrom(t.buffer[n..], 0, o))
        && !Returns(t.db, t.ordersLog, if committed then t.position else t.engineCommitted, o)
        && !ExecutedFrom(t.buffer[..n], 0, o) && !ExecutedFrom(t.executionsLog, t.updaterCommitted, o)
  {
    InitialHolds(s);
    RunKeeps(s.db, s, steps);
    var t := After(s, steps);
    FoundWhileUp(t, o);
    ExecutedSplit(t.executionsLog, t.buffer, n, t.updaterCommitted, o);
    assert !InBooks(NO_ENGINE, o);
    LaterExecution(t.executionsLog, t.updaterCommitted, t.updaterPosition, o);
    LaterEntry(t.ordersLog, t.engineCommitted, t.position, o);
  }

  lemma LaterExecution(log: seq<Execution>, early: nat, late: nat, o: Order)
    requires early <= late
    ensures ExecutedFrom(log, late, o) ==> ExecutedFrom(log, early, o)
  {
  }

  lemma LaterEntry(log: seq<Order>, early: nat, late: nat, o: Order)
    requires early <= late
    ensures InLogFrom(log, late, o) ==> InLogFrom(log, early, o)
  {
  }

  /** An orderly stop whose flush delivers everything loses exactly the resting orders behind the offset it commits
      that nothing else holds. */
  lemma OrderlyStopLosesResting(s: State, steps: seq<Step>, o: Order)
    requires Initial(s) && Legal(s, steps) && After(s, steps).engineUp && Pending(After(s, steps).db, o)
    ensures var t := After(s, steps);
      var t' := Next(t, EngineStops(|t.buffer|, true));
      !NotLost(t', o) <==>
        InBooks(t.engine, o) && !Returns(t.db, t.ordersLog, t.position, o)
        && !ExecutedFrom(t'.executionsLog, t.updaterCommitted, o)
  {
    InitialHolds(s);
    RunKeeps(s.db, s, steps);
    var t := After(s, steps);
    StopLosesExactly(s, steps, |t.buffer|, true, o);
    ExecutedSplit(t.executionsLog, t.buffer, |t.buffer|, t.updaterCommitted, o);
  }

  /** No execution the updater has moved past belongs to a PENDING order. */
  ghost predicate Handled(s: State) {
    forall i :: 0 <= i < s.updaterPosition && s.updaterPosition <= |s.executionsLog| ==>
      s.executionsLog[i].order in s.db.orders && !s.db.orders[s.executionsLog[i].order].status.PENDING?
  }

  lemma StepKeepsHandled(s: State, step: Step)
    requires Inv(s) && Handled(s) && Enabled(s, step)
    ensures Handled(Next(s, step))
  {
    hide TablesOk, RelaysOk;
    var s' := Next(s, step);
    if step.UpdaterApplies? {
      var ex := s.executionsLog[s.updaterPosition];
      assert Genuine(s.db, ex);
      RecordedIsFilled(s, ex);
      ApplyHandles(s.db, ex);
      forall i | 0 <= i < s.updaterPosition
        ensures s.executionsLog[i].order in s'.db.orders && !s'.db.orders[s.executionsLog[i].order].status.PENDING?
      {
        ApplyStatus(s.db, ex, s.executionsLog[i].order);
      }
    } else {
      assert AllGenuine(s.db, s.executionsLog);
      assert forall i :: 0 <= i < s'.updaterPosition ==> s'.executionsLog[i] == s.executionsLog[i];
    }
  }

  lemma RecordedIsFilled(s: State, ex: Execution)
    requires TablesOk(s) && Genuine(s.db, ex)
    ensures Recorded(s.db, ex.id) <==> s.db.orders[ex.order].status.FILLED?
  {
  }

  lemma ApplyHandles(db: Tables, ex: Execution)
    requires ex.order in db.orders && (Recorded(db, ex.id) ==> db.orders[ex.order].status.FILLED?)
    ensures var (db', outcome) := Apply(db, ex);
      !outcome.Raised? ==> ex.order in db'.orders && !db'.orders[ex.order].status.PENDING?
  {
    ApplyStatus(db, ex, ex.order);
    ApplyShape(db, ex);
  }

  lemma {:induction false} RunKeepsHandled(s: State, steps: seq<Step>)
    requires Legal(s, steps) && Inv(s) && Handled(s)
    ensures Handled(After(s, steps))
    decreases |steps|
  {
    if steps != [] {
      StepKeeps(s, steps[0]);
      StepKeepsHandled(s, steps[0]);
      RunKeepsHandled(Next(s, steps[0]), steps[1..]);
    }
  }

  /** While the engine is down, only a relay's mark can take away the last thing that leads to an order. */
  lemma StaysFound(t: State, step: Step, o: Order)
    requires Inv(t) && Handled(t) && Enabled(t, step) && !t.engineUp && !step.EngineStarts? && !step.RelayMarks?
    requires Pending(Next(t, step).db, o) && (Pending(t.db, o) ==> NotLost(t, o))
    ensures NotLost(Next(t, step), o)
  {
    hide Handled, TablesOk, RelaysOk;
    var t' := Next(t, step);
    match step
    case PlaceOrder(x) =>
      assert t'.db.outbox[|t.db.outbox|] == OutboxRow(x, false);
      if o != x {
        assert Pending(t.db, o);
        OutboxKept(t.db, t'.db, o);
      }
    case RelayDelivers(_) => EntryKept(t.ordersLog, t'.ordersLog, t.engineCommitted, o);
    case UpdaterApplies =>
      ApplyShape(t.db, t.executionsLog[t.updaterPosition]);
      ApplyStatus(t.db, t.executionsLog[t.updaterPosition], o.id);
      OutboxKept(t.db, t'.db, o);
    case UpdaterCommits => PendingIsAhead(t, o);
    case _ =>
  }

  lemma OutboxKept(db: Tables, db': Tables, o: Order)
    requires db.outbox <= db'.outbox
    ensures InOutbox(db, o, false) ==> InOutbox(db', o, false)
  {
    if i :| 0 <= i < |db.outbox| && db.outbox[i] == OutboxRow(o, false) {
      assert db'.outbox[i] == OutboxRow(o, false);
    }
  }

  lemma EntryKept(log: seq<Order>, log': seq<Order>, offset: nat, o: Order)
    requires log <= log'
    ensures InLogFrom(log, offset, o) ==> InLogFrom(log', offset, o)
  {
    if i :| offset <= i < |log| && log[i] == o {
      assert log'[i] == o;
    }
  }

  lemma PendingIsAhead(t: State, o: Order)
    requires Handled(t) && Pending(t.db, o) && t.updaterPosition <= |t.executionsLog|
    ensures ExecutedFrom(t.executionsLog, t.updaterCommitted, o) ==>
            ExecutedFrom(t.executionsLog, t.updaterPosition, o)
  {
  }

  /** No unpublished outbox row of the order lies outside the batch. */
  predicate AllIn(outbox: seq<OutboxRow>, batch: seq<nat>, o: Order) {
    forall i :: 0 <= i < |outbox| && outbox[i] == OutboxRow(o, false) ==> i in batch
  }

  lemma MarkedRows(db: Tables, batch: seq<nat>, o: Order)
    ensures InOutbox(db.(outbox := Marked(db.outbox, batch)), o, false) <==> !AllIn(db.outbox, batch, o)
  {
    var db' := db.(outbox := Marked(db.outbox, batch));
    if i :| 0 <= i < |db.outbox| && db.outbox[i] == OutboxRow(o, false) && i !in batch {
      assert db'.outbox[i] == OutboxRow(o, false);
    }
    if i :| 0 <= i < |db'.outbox| && db'.outbox[i] == OutboxRow(o, false) {
      assert db.outbox[i] == OutboxRow(o, false) && i !in batch;
    }
  }

  /** After any run, the mark of a relay leaves a PENDING order lost exactly when the engine is down, the batch holds
      every unpublished row of the order, and neither the log from the committed offset nor an execution the updater has
      not committed leads back to it. */
  lemma MarkLosesExactly(s: State, steps: seq<Step>, r: nat, o: Order)
    requires Initial(s) && Legal(s, steps) && Enabled(After(s, steps), RelayMarks(r)) && Pending(After(s, steps).db, o)
    ensures var t := After(s, steps);
      !NotLost(Next(t, RelayMarks(r)), o) <==>
        !t.engineUp && AllIn(t.db.outbox, t.relays[r].batch, o)
        && !InLogFrom(t.ordersLog, t.engineCommitted, o) && !ExecutedFrom(t.executionsLog, t.updaterCommitted, o)
  {
    hide AllIn, Marked;
    InitialHolds(s);
    RunKeeps(s.db, s, steps);
    var t := After(s, steps);
    StepKeeps(t, RelayMarks(r));
    MarkedRows(t.db, t.relays[r].batch, o);
    if t.engineUp {
      FoundWhileUp(Next(t, RelayMarks(r)), o);
    } else {
      NothingHeld(t, o);
    }
  }

  /** After any run: an order that is lost after the next step was lost before it, or the step stops the engine, or a
      relay marks its batch while the engine is down. */
  lemma OnlyStopsAndMarksLose(s: State, steps: seq<Step>, step: Step, o: Order)
    requires Initial(s) && Legal(s, steps) && Enabled(After(s, steps), step)
    requires var t' := Next(After(s, steps), step); Pending(t'.db, o) && !NotLost(t', o)
    ensures var t := After(s, steps);
      || step.EngineStops?
      || (!t.engineUp && step.RelayMarks?)
      || (!t.engineUp && Pending(t.db, o) && !NotLost(t, o))
  {
    InitialHolds(s);
    RunKeeps(s.db, s, steps);
    RunKeepsHandled(s, steps);
    var t := After(s, steps);
    StepKeeps(t, step);
    if Next(t, step).engineUp {
      FoundWhileUp(Next(t, step), o);
    } else if !step.EngineStops? && !step.RelayMarks? && (Pending(t.db, o) ==> NotLost(t, o)) {
      StaysFound(t, step, o);
    }
  }

  /** Every start of the engine, after any run, puts exactly the PENDING orders back in the books. */
  lemma RestartRestoresBooks(s: State, steps: seq<Step>, rows: seq<Order>)
    requires Initial(s) && Legal(s, steps) && Enabled(After(s, steps), EngineStarts(rows))
    ensures var t := Next(After(s, steps), EngineStarts(rows));
      forall o :: InBooks(t.engine, o) <==> Pending(t.db, o)
  {
    InitialHolds(s);
    RunKeeps(s.db, s, steps);
    ReseedHolds(rows);
    var t := After(s, steps);
    forall o
      ensures o in rows <==> Pending(t.db, o)
    {
      if o in rows {
        var i :| 0 <= i < |rows| && rows[i] == o;
      }
    }
  }

  lemma StepKeepsFilled(s: State, step: Step, id: nat)
    requires Enabled(s, step) && id in s.db.orders && s.db.orders[id].status.FILLED?
    ensures id in Next(s, step).db.orders && Next(s, step).db.orders[id].status.FILLED?
  {
    if step.UpdaterApplies? {
      ApplyStatus(s.db, s.executionsLog[s.updaterPosition], id);
    }
  }

  /** FILLED is never left. */
  lemma {:induction false} FilledIsFinal(s: State, steps: seq<Step>, id: nat)
    requires Legal(s, steps) && id in s.db.orders && s.db.orders[id].status.FILLED?
    ensures id in After(s, steps).db.orders && After(s, steps).db.orders[id].status.FILLED?
    decreases |steps|
  {
    if steps != [] {
      StepKeepsFilled(s, steps[0], id);
      FilledIsFinal(Next(s, steps[0]), steps[1..], id);
    }
  }

  /** The money or the holding an execution needs, as the tables have it. */
  predicate Covered(db: Tables, ex: Execution) {
    && ex.account in db.accounts
    && if ex.side.BUY? then db.accounts[ex.account] >= Cost(ex)
       else Held(db, ex.account, ex.symbol) >= ex.quantity && Credited(db.accounts[ex.account], ex) >= 0.0
  }

  /** A redelivered execution turns REJECTED into FILLED exactly when it is covered; otherwise REJECTED stays. */
  lemma RejectedIsFilledIffCovered(db: Tables, ex: Execution)
    requires WellKept(db) && NonNegative(db) && Genuine(db, ex) && ex.quantity > 0.0
    requires db.orders[ex.order].status.REJECTED?
    ensures Apply(db, ex).0.orders[ex.order].status.FILLED? <==> Covered(db, ex)
    ensures Apply(db, ex).0.orders[ex.order].status.REJECTED? <==> !Covered(db, ex)
  {
    hide RoundHalfUp, BlendedCost, UnitCost;
    assert !Recorded(db, ex.id);
    if ex.side.BUY? {
      AffordableStays(db.accounts, ex);
    }
  }

  lemma AffordableStays(accounts: map<string, real>, ex: Execution)
    ensures ex.account in accounts && accounts[ex.account] >= Cost(ex) ==> Debited(accounts[ex.account], ex) >= 0.0
  {
  }

  /** REJECTED is not final: after any run, a step leaves it exactly when the updater applies an execution of that
      order and the account covers it by then, and it is left for FILLED. */
  lemma RejectedIsLeftIffCovered(s: State, steps: seq<Step>, step: Step, id: nat)
    requires Initial(s) && Legal(s, steps) && Enabled(After(s, steps), step)
    requires var t := After(s, steps);
      id in t.db.orders && t.db.orders[id].status.REJECTED? && t.db.orders[id].order.quantity > 0.0
    ensures var t := After(s, steps);
      var status := Next(t, step).db.orders[id].status;
      && (status.FILLED? <==> step.UpdaterApplies? && t.executionsLog[t.updaterPosition].order == id
                              && Covered(t.db, t.executionsLog[t.updaterPosition]))
      && (status.FILLED? || status.REJECTED?)
  {
    InitialHolds(s);
    RunKeeps(s.db, s, steps);
    var t := After(s, steps);
    if step.UpdaterApplies? {
      var ex := t.executionsLog[t.updaterPosition];
      assert Genuine(t.db, ex);
      ApplyShape(t.db, ex);
      if ex.order == id {
        RejectedIsFilledIffCovered(t.db, ex);
      }
    }
  }

  // ----- The relay as it runs -----

  class OrdersTopic {
    var log: seq<Order>

    constructor ()
      ensures log == []
    {
      log := [];
    }

    method Produce(order: Order)
      modifies this
      ensures log == old(log) + [order]
    {
      log := log + [order];
    }
  }

  function Payloads(outbox: seq<OutboxRow>, ids: seq<nat>): (r: seq<Order>)
    requires forall k :: 0 <= k < |ids| ==> ids[k] < |outbox|
    ensures |r| == |ids| && forall k :: 0 <= k < |r| ==> r[k] == outbox[ids[k]].payload
  {
    seq(|ids|, k requires 0 <= k < |ids| => outbox[ids[k]].payload)
  }

  /** One uninterrupted relay transaction: publish the batch in id order, flush, then mark exactly that batch. */
  method RelayBatch(db: Database, topic: OrdersTopic, others: seq<Relay>) returns (published: nat)
    modifies db, topic
    ensures var ids := Unpublished(old(db.outbox), others, 0, BATCH);
      && published == |ids|
      && topic.log == old(topic.log) + Payloads(old(db.outbox), ids)
      && db.Contents() == old(db.Contents()).(outbox := Marked(old(db.outbox), ids))
  {
    var ids := Unpublished(db.outbox, others, 0, BATCH);
    for i := 0 to |ids|
      invariant db.Contents() == old(db.Contents())
      invariant topic.log == old(topic.log) + Payloads(old(db.outbox), ids[..i])
    {
      topic.Produce(db.outbox[ids[i]].payload);
      assert Payloads(db.outbox, ids[..i + 1]) == Payloads(db.outbox, ids[..i]) + [db.outbox[ids[i]].payload];
    }
    assert ids[..|ids|] == ids;
    db.outbox := Marked(db.outbox, ids);
    return |ids|;
  }
}
