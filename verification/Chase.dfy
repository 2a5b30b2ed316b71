/** The broker chase: submit, poll the balance, cancel the rest, reorder. The broker is an adversary that fills or drops
    open quantity between any two calls, may fail any read, and may take an order whose submission raised. */
module Chase {
  import opened Dict

  /** One gateway answer. A throttle refusal never reached the broker; a failure says nothing either way. */
  datatype Reply = Throttled | Confirmed | Failed(taken: bool)

  datatype Request = Order(qty: nat) | Cancel(odno: nat)

  datatype Outcome = Accepted | Raised(taken: bool)

  const TRIES: nat := 3

  predicate Taken(reply: Reply) {
    reply.Confirmed? || (reply.Failed? && reply.taken)
  }

  /** How a submission that starts at reply n ends, and the first reply it leaves unread. */
  function Settle(replies: nat -> Reply, n: nat, tries: nat): (Outcome, nat)
    requires tries > 0
    decreases tries
  {
    match replies(n)
    case Throttled => if tries > 1 then Settle(replies, n + 1, tries - 1) else (Raised(false), n + 1)
    case Confirmed => (Accepted, n + 1)
    case Failed(taken) => (Raised(taken), n + 1)
  }

  /** Only refusals that took nothing are ever repeated, so one submission takes effect at most once. */
  lemma {:induction false} RetriesRepeatNothingTaken(replies: nat -> Reply, n: nat, tries: nat)
    requires tries > 0
    ensures var (outcome, next) := Settle(replies, n, tries);
      && n < next <= n + tries
      && (forall k :: n <= k < next - 1 ==> replies(k).Throttled?)
      && (outcome.Accepted? <==> replies(next - 1).Confirmed?)
      && (outcome.Raised? ==> outcome.taken == Taken(replies(next - 1)))
      && (replies(next - 1).Throttled? ==> next == n + tries)
    decreases tries
  {
    if replies(n).Throttled? && tries > 1 {
      RetriesRepeatNothingTaken(replies, n + 1, tries - 1);
    }
  }

  function Outstanding(orders: seq<nat>): nat {
    if orders == [] then 0 else Outstanding(orders[..|orders| - 1]) + orders[|orders| - 1]
  }

  lemma {:induction false} OutstandingChange(before: seq<nat>, i: nat, left: nat)
    requires i < |before|
    ensures Outstanding(before[i := left]) == Outstanding(before) - before[i] + left
  {
    var after := before[i := left];
    if i == |before| - 1 {
      assert after[..i] == before[..i];
    } else {
      OutstandingChange(before[..|before| - 1], i, left);
      assert after[..|before| - 1] == before[..|before| - 1][i := left];
    }
  }

  lemma OutstandingAppend(orders: seq<nat>, qty: nat)
    ensures Outstanding(orders + [qty]) == Outstanding(orders) + qty
  {
    assert (orders + [qty])[..|orders|] == orders;
  }

  lemma {:induction false} NothingOpen(orders: seq<nat>)
    ensures Outstanding(orders) == 0 <==> forall i :: 0 <= i < |orders| ==> orders[i] == 0
  {
    if orders != [] {
      NothingOpen(orders[..|orders| - 1]);
    }
  }

  // ----- The broker -----

  /** What may happen to an open order between two calls: some of it fills, some of it lapses. */
  datatype Move = Move(fill: nat, lapse: nat)

  /** Everything the broker will do, in order: its answers to posts, what happens to each order at each moment, which
      balance reads succeed, and the quotes it gives (a failed lookup is None). Any script is possible. */
  datatype Script = Script(
    replies: nat -> Reply,
    moves: (nat, nat) -> Move,
    readable: nat -> bool,
    quotes: nat -> Option<real>)

  /** The account at one moment. Order numbers are positions in orders; each entry is the quantity still open. */
  datatype Standing = Standing(
    posts: nat, moments: nat, looks: nat, asked: nat,
    orders: seq<nat>, filled: nat)

  const UNTOUCHED := Standing(0, 0, 0, 0, [], 0)

  function Least(x: nat, y: nat): nat { if y < x then y else x }

  /** The first n orders have moved. */
  function Moved(script: Script, b: Standing, n: nat): (c: Standing)
    requires n <= |b.orders|
    ensures |c.orders| == |b.orders| && forall i :: n <= i < |b.orders| ==> c.orders[i] == b.orders[i]
    ensures c.(orders := b.orders, filled := b.filled) == b
  {
    if n == 0 then b
    else
      var c := Moved(script, b, n - 1);
      var move, open := script.moves(b.moments, n - 1), b.orders[n - 1];
      var fill := Least(move.fill, open);
      c.(orders := c.orders[n - 1 := open - fill - Least(move.lapse, open - fill)], filled := c.filled + fill)
  }

  lemma MovedNext(script: Script, b: Standing, n: nat)
    requires n <= |b.orders|
    ensures if n == 0 then Moved(script, b, n) == b
            else var c := Moved(script, b, n - 1); var move := script.moves(b.moments, n - 1);
                 var fill := Least(move.fill, c.orders[n - 1]);
                 var left := c.orders[n - 1] - fill - Least(move.lapse, c.orders[n - 1] - fill);
                 Moved(script, b, n) == c.(orders := c.orders[n - 1 := left], filled := c.filled + fill)
  {
  }

  /** Moving only turns open quantity into fills, or into nothing. */
  lemma {:induction false} MovedKeeps(script: Script, b: Standing, n: nat)
    requires n <= |b.orders|
    ensures var c := Moved(script, b, n);
      && c.filled >= b.filled && c.filled + Outstanding(c.orders) <= b.filled + Outstanding(b.orders)
      && forall i :: 0 <= i < |b.orders| ==> c.orders[i] <= b.orders[i]
  {
    hide Outstanding, Moved;
    MovedNext(script, b, n);
    if n > 0 {
      MovedKeeps(script, b, n - 1);
      var c, d := Moved(script, b, n - 1), Moved(script, b, n);
      OutstandingChange(c.orders, n - 1, d.orders[n - 1]);
      assert d.orders == c.orders[n - 1 := d.orders[n - 1]];
    }
  }

  function Traded(script: Script, b: Standing): (c: Standing)
    ensures |c.orders| == |b.orders|
  {
    Moved(script, b, |b.orders|).(moments := b.moments + 1)
  }

  function Balanced(script: Script, b: Standing): (r: (Standing, Option<nat>))
    ensures |r.0.orders| == |b.orders|
  {
    var c := Traded(script, b).(looks := b.looks + 1);
    (c, if script.readable(b.looks) then Some(c.filled) else None)
  }

  function Posted(script: Script, b: Standing, request: Request): (r: (Standing, Reply))
    requires request.Cancel? ==> request.odno < |b.orders|
    ensures |r.0.orders| == |b.orders| + if request.Order? && Taken(r.1) then 1 else 0
  {
    var reply := script.replies(b.posts);
    var c := Traded(script, b).(posts := b.posts + 1);
    var orders := if !Taken(reply) then c.orders
                  else if request.Order? then c.orders + [request.qty] else c.orders[request.odno := 0];
    (c.(orders := orders), reply)
  }

  class Broker {
    const script: Script
    const buying: bool
    const start: real
    var posts: nat
    var moments: nat
    var looks: nat
    var asked: nat
    var orders: seq<nat>
    var filled: nat
    /** Largest filled plus open quantity ever reached. */
    ghost var peak: nat
    /** Fills shown by each balance read that succeeded. */
    ghost var observed: seq<nat>
    /** How many reads had succeeded when an order was last sent. */
    ghost var readsBefore: nat

    constructor (script: Script, buying: bool, start: real)
      ensures this.script == script && this.buying == buying && this.start == start
      ensures Now() == UNTOUCHED && peak == 0 && observed == []
    {
      this.script, this.buying, this.start := script, buying, start;
      posts, moments, looks, asked, orders, filled, peak, observed, readsBefore :=
        0, 0, 0, 0, [], 0, 0, [], 0;
    }

    function Now(): Standing
      reads this
    {
      Standing(posts, moments, looks, asked, orders, filled)
    }

    /** Nothing has been sent for this chase yet. */
    predicate Untouched()
      reads this
    {
      posts == 0 && orders == [] && filled == 0
    }

    ghost predicate Valid()
      reads this
    {
      filled + Outstanding(orders) <= peak
    }

    function Holding(): real
      reads this
    {
      if buying then start + filled as real else start - filled as real
    }

    /** Fills and expiries that happen on their own between two calls. */
    method Trade()
      requires Valid()
      modifies this`orders, this`filled, this`moments
      ensures Now() == Traded(script, old(Now()))
      ensures Valid() && |orders| == |old(orders)| && filled >= old(filled)
      ensures filled + Outstanding(orders) <= old(filled + Outstanding(orders))
      ensures old(Outstanding(orders)) == 0 ==> filled == old(filled)
      ensures forall i :: 0 <= i < |orders| ==> orders[i] <= old(orders)[i]
    {
      hide Moved, Outstanding;
      ghost var before := Now();
      MovedNext(script, before, 0);
      for i := 0 to |orders|
        invariant Now() == Moved(script, before, i) && |orders| == |before.orders|
      {
        MovedNext(script, before, i + 1);
        var move := script.moves(moments, i);
        var fill := Least(move.fill, orders[i]);
        filled, orders := filled + fill, orders[i := orders[i] - fill - Least(move.lapse, orders[i] - fill)];
      }
      MovedKeeps(script, before, |orders|);
      moments := moments + 1;
    }

    /** A balance read fails or tells the truth. */
    method Balance() returns (held: Option<real>)
      requires Valid()
      modifies this`orders, this`filled, this`moments, this`looks, this`observed
      ensures Now() == Balanced(script, old(Now())).0 && (held.Some? <==> Balanced(script, old(Now())).1.Some?)
      ensures Valid() && |orders| == |old(orders)| && filled >= old(filled)
      ensures filled + Outstanding(orders) <= old(filled + Outstanding(orders))
      ensures old(Outstanding(orders)) == 0 ==> filled == old(filled)
      ensures forall i :: 0 <= i < |orders| ==> orders[i] <= old(orders)[i]
      ensures if held.Some? then held.value == Holding() && observed == old(observed) + [filled]
              else observed == old(observed)
    {
      Trade();
      held := None;
      if script.readable(looks) {
        held := Some(Holding());
        observed := observed + [filled];
      }
      looks := looks + 1;
    }

    /** Price and exchange lookup: fails, or gives a price that may be missing (zero). */
    method PriceAndExchange() returns (quote: Option<real>)
      modifies this`asked
      ensures quote == script.quotes(old(asked)) && asked == old(asked) + 1
    {
      quote := script.quotes(asked);
      asked := asked + 1;
    }

    /** One request over the wire. */
    method Post(request: Request) returns (reply: Reply)
      requires Valid() && (request.Cancel? ==> request.odno < |orders|)
      modifies this`orders, this`filled, this`moments, this`posts, this`peak, this`readsBefore
      ensures readsBefore == if request.Order? then |observed| else old(readsBefore)
      ensures (Now(), reply) == Posted(script, old(Now()), request)
      ensures Valid() && filled >= old(filled) && posts == old(posts) + 1 && reply == script.replies(old(posts))
      ensures |orders| == |old(orders)| + (if request.Order? && Taken(reply) then 1 else 0)
      ensures filled + Outstanding(orders)
           <= old(filled + Outstanding(orders)) + (if request.Order? && Taken(reply) then request.qty else 0)
      ensures if request.Order? && Taken(reply) then peak == old(peak) || peak == filled + Outstanding(orders)
              else peak == old(peak)
      ensures old(Outstanding(orders)) == 0 ==> filled == old(filled)
      ensures request.Cancel? && Taken(reply) ==> orders[request.odno] == 0
      ensures forall i :: 0 <= i < |old(orders)| && old(orders)[i] == 0 ==> orders[i] == 0
    {
      hide Traded, Outstanding;
      Trade();
      readsBefore := if request.Order? then |observed| else readsBefore;
      reply := script.replies(posts);
      posts := posts + 1;
      if Taken(reply) {
        match request
        case Order(qty) =>
          OutstandingAppend(orders, qty);
          orders := orders + [qty];
          peak := if peak < filled + Outstanding(orders) then filled + Outstanding(orders) else peak;
        case Cancel(odno) =>
          OutstandingChange(orders, odno, 0);
          orders := orders[odno := 0];
      }
    }
  }

  predicate Sides(side: string) {
    side == "BUY" || side == "SELL"
  }

  /** The request sent until it is answered with anything but a throttle refusal, or the tries are used up. */
  function PostedUntil(script: Script, b: Standing, request: Request, tries: nat): (r: (Standing, Outcome))
    requires tries > 0 && (request.Cancel? ==> request.odno < |b.orders|)
    ensures |r.0.orders| == |b.orders| + if request.Order? && (r.1.Accepted? || r.1.taken) then 1 else 0
    decreases tries
  {
    var (c, reply) := Posted(script, b, request);
    match reply
    case Throttled => if tries > 1 then PostedUntil(script, c, request, tries - 1) else (c, Raised(false))
    case Confirmed => (c, Accepted)
    case Failed(taken) => (c, Raised(taken))
  }

  /** post_order: the same request again only after a throttle refusal, three tries in all. */
  method PostOrder(broker: Broker, request: Request) returns (outcome: Outcome)
    requires broker.Valid() && (request.Cancel? ==> request.odno < |broker.orders|)
    modifies broker`orders, broker`filled, broker`moments, broker`posts, broker`peak, broker`readsBefore
    ensures broker.readsBefore == if request.Order? then |broker.observed| else old(broker.readsBefore)
    ensures (broker.Now(), outcome) == PostedUntil(broker.script, old(broker.Now()), request, TRIES)
    ensures broker.Valid() && broker.filled >= old(broker.filled) && broker.posts > old(broker.posts)
    ensures (outcome, broker.posts) == Settle(broker.script.replies, old(broker.posts), TRIES)
    ensures var took := outcome.Accepted? || outcome.taken;
      && |broker.orders| == |old(broker.orders)| + (if request.Order? && took then 1 else 0)
      && broker.filled + Outstanding(broker.orders)
         <= old(broker.filled + Outstanding(broker.orders)) + (if request.Order? && took then request.qty else 0)
      && (request.Cancel? && took ==> broker.orders[request.odno] == 0)
    ensures broker.peak == old(broker.peak) || broker.peak <= broker.filled + Outstanding(broker.orders)
    ensures old(Outstanding(broker.orders)) == 0 ==> broker.filled == old(broker.filled)
    ensures forall i :: 0 <= i < |old(broker.orders)| && old(broker.orders)[i] == 0 ==> broker.orders[i] == 0
  {
    hide Posted, Outstanding;
    var i := 0;
    while true
      invariant 0 <= i < TRIES && broker.Valid()
      invariant i > 0 && request.Order? ==> broker.readsBefore == |broker.observed|
      invariant request.Cancel? ==> broker.readsBefore == old(broker.readsBefore)
      invariant broker.filled >= old(broker.filled) && broker.posts >= old(broker.posts)
      invariant |broker.orders| == |old(broker.orders)|
      invariant PostedUntil(broker.script, broker.Now(), request, TRIES - i)
             == PostedUntil(broker.script, old(broker.Now()), request, TRIES)
      invariant Settle(broker.script.replies, broker.posts, TRIES - i)
             == Settle(broker.script.replies, old(broker.posts), TRIES)
      invariant broker.filled + Outstanding(broker.orders) <= old(broker.filled + Outstanding(broker.orders))
      invariant broker.peak == old(broker.peak)
      invariant old(Outstanding(broker.orders)) == 0 ==> broker.filled == old(broker.filled)
      invariant forall j :: 0 <= j < |broker.orders| && old(broker.orders)[j] == 0 ==> broker.orders[j] == 0
      decreases TRIES - i
    {
      var reply := broker.Post(request);
      if reply.Throttled? && i < TRIES - 1 {
        i := i + 1;
        continue;
      }
      return match reply
        case Confirmed => Accepted
        case Throttled => Raised(false)
        case Failed(taken) => Raised(taken);
    }
  }

  /** Shares filled since the baseline, as the balance shows them. */
  method FilledSince(broker: Broker, side: string, base: real) returns (filled: Option<int>)
    requires broker.Valid() && base == broker.start && broker.buying == (side == "BUY")
    modifies broker`orders, broker`filled, broker`moments, broker`looks, broker`observed
    ensures var (b, seen) := Balanced(broker.script, old(broker.Now()));
      broker.Now() == b && filled == match seen case None => None case Some(n) => Some(n)
    ensures broker.Valid() && |broker.orders| == |old(broker.orders)| && broker.filled >= old(broker.filled)
    ensures broker.filled + Outstanding(broker.orders) <= old(broker.filled + Outstanding(broker.orders))
    ensures old(Outstanding(broker.orders)) == 0 ==> broker.filled == old(broker.filled)
    ensures forall i :: 0 <= i < |broker.orders| ==> broker.orders[i] <= old(broker.orders)[i]
    ensures if filled.None? then broker.observed == old(broker.observed)
            else filled.value == broker.filled && broker.observed == old(broker.observed) + [broker.filled]
  {
    var now := broker.Balance();
    if now.None? {
      return None;
    }
    var moved := if side == "BUY" then now.value - base else base - now.value;
    return Some((if moved > 0.0 then moved else 0.0).Floor);
  }

  function PollDelay(i: nat): (r: nat)
    ensures 2 <= r <= 10
  {
    [2, 3, 4, 6, 8, 10][if i < 5 then i else 5]
  }

  /** Without an early end the balance is looked at 2, 5, 9, 15, 23 and 33 seconds after the order, then every ten. */
  lemma PollMoments(i: nat)
    ensures PollDelay(0) == 2 && PollDelay(0) + PollDelay(1) == 5
    ensures PollDelay(2) == 9 - 5 && PollDelay(3) == 15 - 9 && PollDelay(4) == 23 - 15
    ensures i >= 5 ==> PollDelay(i) == 10
  {
  }

  /** The fills last read since a moment at which n reads had succeeded; zero when none has. */
  ghost function LastSince(observed: seq<nat>, n: nat): nat {
    if |observed| > n then observed[|observed| - 1] else 0
  }

  /** Polling from a given moment on, with the quantity read last. */
  function Polled(script: Script, b: Standing, want: int, window: int, waited: int, i: nat, filled: int)
    : (r: (Standing, int))
    ensures |r.0.orders| == |b.orders|
    decreases window - waited
  {
    if waited >= window then (b, filled)
    else
      var (c, seen) := Balanced(script, b);
      match seen
      case None => Polled(script, c, want, window, waited + PollDelay(i), i + 1, filled)
      case Some(n) => if n >= want then (c, n) else Polled(script, c, want, window, waited + PollDelay(i), i + 1, n)
  }

  /** _poll_fill: the quantity read last, zero when every read failed; polls until everything wanted is there or the
      window is used up. */
  method PollFill(broker: Broker, side: string, base: real, want: int, window: int) returns (filled: int, waited: int)
    requires broker.Valid() && base == broker.start && broker.buying == (side == "BUY")
    modifies broker`orders, broker`filled, broker`moments, broker`looks, broker`observed
    ensures (broker.Now(), filled) == Polled(broker.script, old(broker.Now()), want, window, 0, 0, 0)
    ensures broker.Valid() && |broker.orders| == |old(broker.orders)| && broker.filled >= old(broker.filled)
    ensures broker.filled + Outstanding(broker.orders) <= old(broker.filled + Outstanding(broker.orders))
    ensures old(Outstanding(broker.orders)) == 0 ==> broker.filled == old(broker.filled)
    ensures forall i :: 0 <= i < |broker.orders| ==> broker.orders[i] <= old(broker.orders)[i]
    ensures 0 <= filled <= broker.filled
    ensures old(broker.observed) <= broker.observed && filled == LastSince(broker.observed, |old(broker.observed)|)
    ensures filled < want ==> waited >= window
    ensures 0 <= waited && (waited > 0 ==> waited < window + 10)
  {
    hide Balanced, Outstanding;
    waited, filled := 0, 0;
    var i := 0;
    while waited < window
      invariant Polled(broker.script, broker.Now(), want, window, waited, i, filled)
             == Polled(broker.script, old(broker.Now()), want, window, 0, 0, 0)
      invariant 0 <= filled <= broker.filled && i >= 0 && 0 <= waited && (waited > 0 ==> waited < window + 10)
      invariant broker.Valid() && |broker.orders| == |old(broker.orders)| && broker.filled >= old(broker.filled)
      invariant broker.filled + Outstanding(broker.orders) <= old(broker.filled + Outstanding(broker.orders))
      invariant old(Outstanding(broker.orders)) == 0 ==> broker.filled == old(broker.filled)
      invariant forall j :: 0 <= j < |broker.orders| ==> broker.orders[j] <= old(broker.orders)[j]
      invariant old(broker.observed) <= broker.observed && filled == LastSince(broker.observed, |old(broker.observed)|)
    {
      waited := waited + PollDelay(i);
      i := i + 1;
      var seen := FilledSince(broker, side, base);
      if seen.Some? {
        filled := seen.value;
        if filled >= want {
          return;
        }
      }
    }
  }

  datatype Status = FILLED | PARTIAL | UNFILLED | REJECTED

  datatype Attempt = Attempt(
    qty: int, failed: bool, filledTotal: Option<int>,
    cancelled: Option<bool>, rechecked: Option<bool>)

  datatype Report = Propagated | Report(status: Status, requested: int, filled: int, attempts: seq<Attempt>)

  function StatusOf(qty: int, remaining: int, attempts: seq<Attempt>): Status {
    if remaining <= 0 then FILLED
    else if qty - remaining > 0 then PARTIAL
    else if |attempts| > 0 && attempts[0].failed then REJECTED
    else UNFILLED
  }

  /** One attempt, for what is still missing. */
  function SubmittedOf(script: Script, b: Standing, market: string, qty: int, remaining: nat, window: int)
    : (Standing, Attempt, int, bool)
  {
    var att := Attempt(remaining, false, None, None, None);
    var (c, outcome) := PostedUntil(script, b, Order(remaining), TRIES);
    if outcome.Raised? then (c, att.(failed := true), remaining, false)
    else
      var (d, filled) := Polled(script, c, qty, window, 0, 0, 0);
      if qty - filled <= 0 || market == "KR" then (d, att.(filledTotal := Some(filled)), qty - filled, false)
      else
        var (e, cancel) := PostedUntil(script, d, Cancel(|d.orders| - 1), TRIES);
        var (f, seen) := Balanced(script, e);
        var left := match seen case None => qty - filled case Some(n) => qty - n;
        (f, Attempt(remaining, false, Some(filled), Some(cancel.Accepted?), Some(seen.Some?)), left,
         cancel.Accepted? && seen.Some? && left > 0)
  }

  /** One attempt: submit what is missing, poll, and for a US order cancel the rest and look again.
      go says that the order is confirmed closed and something is still missing. */
  method Submit(broker: Broker, market: string, side: string, qty: int, remaining: int, base: real, window: int)
    returns (att: Attempt, left: int, go: bool)
    requires broker.Valid() && base == broker.start && broker.buying == (side == "BUY") && Sides(side)
    requires Outstanding(broker.orders) == 0 && remaining == qty - broker.filled && remaining > 0 && broker.peak <= qty
    modifies broker`orders, broker`filled, broker`moments, broker`looks, broker`posts, broker`peak, broker`observed,
             broker`readsBefore
    ensures broker.readsBefore == |old(broker.observed)| && att.qty == remaining
    ensures (broker.Now(), att, left, go)
         == SubmittedOf(broker.script, old(broker.Now()), market, qty, remaining, window)
    ensures broker.Valid() && broker.peak <= qty && broker.posts > old(broker.posts)
    ensures var outcome := Settle(broker.script.replies, old(broker.posts), TRIES).0;
      && att.failed == outcome.Raised?
      && (att.failed ==>
            left == remaining && |broker.orders| == |old(broker.orders)| + (if outcome.taken then 1 else 0))
    ensures broker.filled >= old(broker.filled)
    ensures 0 <= qty - left <= broker.filled
    ensures old(broker.observed) <= broker.observed && (att.failed ==> broker.observed == old(broker.observed))
    ensures !att.failed ==> qty - left == LastSince(broker.observed, |old(broker.observed)|)
    ensures !att.failed && att.rechecked != Some(true) ==> att.filledTotal == Some(qty - left)
    ensures att.rechecked == Some(true) ==> |broker.observed| > |old(broker.observed)|
    ensures att.failed ==> att.rechecked == None
    ensures go ==> left > 0 && !att.failed && att.cancelled == att.rechecked == Some(true)
    ensures att.cancelled == att.rechecked == Some(true) ==>
      Outstanding(broker.orders) == 0 && left == qty - broker.filled && (go <==> left > 0)
  {
    hide Settle, Outstanding, PostedUntil, Polled, Balanced;
    att, left, go := Attempt(remaining, false, None, None, None), remaining, false;
    NothingOpen(broker.orders);
    var outcome := PostOrder(broker, Order(remaining));
    if outcome.Raised? {
      att := att.(failed := true);
      return;
    }
    var odno := |broker.orders| - 1;

    var filledTotal, waited := PollFill(broker, side, base, qty, window);
    att := att.(filledTotal := Some(filledTotal));
    left := qty - filledTotal;
    if left <= 0 || market == "KR" {
      return;
    }

    var cancel := PostOrder(broker, Cancel(odno));
    if cancel.Accepted? {
      NothingOpen(broker.orders);
    }
    var seen := FilledSince(broker, side, base);
    att := att.(cancelled := Some(cancel.Accepted?), rechecked := Some(seen.Some?));
    if seen.Some? {
      left := qty - seen.value;
    }
    go := cancel.Accepted? && seen.Some? && left > 0;
  }

  /** The last attempt did not get taken, or was followed by a successful recheck. */
  predicate Rechecked(attempts: seq<Attempt>)
    requires attempts != []
  {
    var last := attempts[|attempts| - 1];
    last.failed || last.rechecked == Some(true)
  }

  /** The last attempt's rest is known to be cancelled and its fills to be counted: another attempt is safe. */
  predicate Reopened(attempts: seq<Attempt>)
    requires attempts != []
  {
    attempts[|attempts| - 1].cancelled == attempts[|attempts| - 1].rechecked == Some(true)
  }

  /** The last attempt was taken, and no balance read has succeeded since its order was sent. */
  ghost predicate FallsBack(broker: Broker, attempts: seq<Attempt>)
    reads broker
  {
    attempts != [] && !attempts[|attempts| - 1].failed && |broker.observed| <= broker.readsBefore
  }

  /** The first submission goes out with no price lookup in the way. */
  predicate Direct(market: string, hasExchange: bool, refPrice: Option<real>, maxAttempts: int) {
    market == "KR" || (refPrice.Some? && refPrice.value != 0.0 && (market == "US" ==> hasExchange && maxAttempts > 0))
  }

  predicate Truthy(price: Option<real>) {
    price.Some? && price.value != 0.0
  }

  lemma StatusMeans(qty: int, remaining: int, attempts: seq<Attempt>)
    ensures var status := StatusOf(qty, remaining, attempts);
      && (status.FILLED? <==> remaining <= 0)
      && (status.PARTIAL? <==> remaining > 0 && qty - remaining > 0)
      && (status.REJECTED? <==> remaining > 0 && qty - remaining <= 0 && attempts != [] && attempts[0].failed)
  {
  }

  /** The attempts of a chase and what they left missing. */
  ghost predicate Chased(broker: Broker, side: string, qty: int, attempts: seq<Attempt>, remaining: int)
    reads broker
  {
    && broker.Valid() && broker.observed != []
    && (if qty <= 0 || !Sides(side) then broker.posts == 0 && broker.orders == [] && remaining == qty
        else broker.peak <= qty && 0 <= qty - remaining <= broker.filled <= qty)
    && broker.peak <= (if qty > 0 then qty else 0)
    && (if attempts == [] || Rechecked(attempts) then qty - remaining == broker.observed[|broker.observed| - 1]
        else attempts[|attempts| - 1].filledTotal == Some(qty - remaining))
    && (attempts != [] && !attempts[|attempts| - 1].failed ==>
          qty - remaining == LastSince(broker.observed, broker.readsBefore))
    && (forall i :: 0 <= i < |attempts| - 1 ==>
          !attempts[i].failed && attempts[i].cancelled == attempts[i].rechecked == Some(true))
    && (attempts != [] && attempts[|attempts| - 1].cancelled == attempts[|attempts| - 1].rechecked == Some(true) ==>
          Outstanding(broker.orders) == 0 && qty - remaining == broker.filled)
    && (attempts != [] && attempts[0].failed ==>
          && |attempts| == 1 && remaining == qty
          && (broker.orders != [] <==> broker.posts > 0 && Settle(broker.script.replies, 0, TRIES).0 == Raised(true)))
  }

  /** Between two attempts nothing is open and what is missing is exact. */
  ghost predicate Between(broker: Broker, side: string, qty: int, attempts: seq<Attempt>, remaining: int)
    reads broker
  {
    && broker.Valid() && broker.peak <= (if qty > 0 then qty else 0)
    && Outstanding(broker.orders) == 0 && remaining == qty - broker.filled
    && broker.observed != [] && broker.observed[|broker.observed| - 1] == broker.filled
    && (if attempts == [] then broker.Untouched()
        else remaining > 0 && Sides(side) && broker.posts > 0 && |broker.observed| > broker.readsBefore)
    && (forall i :: 0 <= i < |attempts| ==>
          !attempts[i].failed && attempts[i].cancelled == attempts[i].rechecked == Some(true))
  }

  lemma NothingMoreToTry(broker: Broker, side: string, qty: int, attempts: seq<Attempt>, remaining: int)
    requires Between(broker, side, qty, attempts, remaining)
    ensures Chased(broker, side, qty, attempts, remaining)
  {
  }

  /** One turn of the loop; only the first one may use the price it was given. */
  function TurnOf(script: Script, b: Standing, market: string, side: string, qty: int, px0: Option<real>, first: bool,
                  remaining: int, window: int): (Standing, Attempt, int, bool)
  {
    var asks := market != "KR" && !(first && Truthy(px0));
    var px := if asks then script.quotes(b.asked) else px0;
    var c := if asks then b.(asked := b.asked + 1) else b;
    if (market != "KR" && !Truthy(px)) || !Sides(side) || remaining <= 0
    then (c, Attempt(remaining, true, None, None, None), remaining, false)
    else SubmittedOf(script, c, market, qty, remaining, window)
  }

  /** The turns from a given moment on. */
  function ChasedFrom(script: Script, b: Standing, market: string, side: string, qty: int, px0: Option<real>,
                      attempts: seq<Attempt>, remaining: int, limit: int, window: int)
    : (Standing, seq<Attempt>, int)
    decreases limit - |attempts|
  {
    if |attempts| >= limit then (b, attempts, remaining)
    else
      var (c, att, left, go) := TurnOf(script, b, market, side, qty, px0, attempts == [], remaining, window);
      if go then ChasedFrom(script, c, market, side, qty, px0, attempts + [att], left, limit, window)
      else (c, attempts + [att], left)
  }

  lemma ChasedFromHere(script: Script, b: Standing, market: string, side: string, qty: int, px0: Option<real>,
                       attempts: seq<Attempt>, remaining: int, limit: int, window: int,
                       c: Standing, att: Attempt, left: int, go: bool)
    requires |attempts| < limit
    requires TurnOf(script, b, market, side, qty, px0, attempts == [], remaining, window) == (c, att, left, go)
    ensures ChasedFrom(script, b, market, side, qty, px0, attempts, remaining, limit, window)
         == if go then ChasedFrom(script, c, market, side, qty, px0, attempts + [att], left, limit, window)
            else (c, attempts + [att], left)
  {
    hide TurnOf;
  }

  lemma OutOfTurns(script: Script, b: Standing, market: string, side: string, qty: int, px0: Option<real>,
                   attempts: seq<Attempt>, remaining: int, limit: int, window: int)
    requires |attempts| >= limit
    ensures ChasedFrom(script, b, market, side, qty, px0, attempts, remaining, limit, window)
         == (b, attempts, remaining)
  {
    hide TurnOf;
  }

  /** place_and_chase against a script: the account it leaves and what it reports. */
  function ChaseOf(script: Script, b: Standing, market: string, side: string, qty: int, refPrice: Option<real>,
                   hasExchange: bool, maxAttempts: int, window: int): (Standing, Report)
  {
    var asks := market == "US" && !hasExchange;
    var px0 := if asks then script.quotes(b.asked) else refPrice;
    var c := if asks then b.(asked := b.asked + 1) else b;
    if asks && px0.None? then (c, Propagated)
    else
      var (d, held) := Balanced(script, c);
      if held.None? then (d, Propagated)
      else
        var limit := if market == "US" then maxAttempts else 1;
        var (e, attempts, remaining) := ChasedFrom(script, d, market, side, qty, px0, [], qty, limit, window);
        (e, Report(StatusOf(qty, remaining, attempts), qty, qty - remaining, attempts))
  }

  /** One turn of the loop: the price lookup and the order guards, then the attempt. */
  method Turn(broker: Broker, market: string, side: string, qty: int, px0: Option<real>, attempts: seq<Attempt>,
              remaining: int, base: real, window: int) returns (att: Attempt, left: int, go: bool)
    requires Between(broker, side, qty, attempts, remaining)
    requires base == broker.start && broker.buying == (side == "BUY")
    modifies broker`orders, broker`filled, broker`moments, broker`looks, broker`posts, broker`peak, broker`observed,
             broker`asked, broker`readsBefore
    ensures (broker.Now(), att, left, go)
         == TurnOf(broker.script, old(broker.Now()), market, side, qty, px0, attempts == [], remaining, window)
    ensures if go then Between(broker, side, qty, attempts + [att], left)
            else Chased(broker, side, qty, attempts + [att], left)
    ensures att.qty == remaining == qty - old(broker.filled)
    ensures att.cancelled == att.rechecked == Some(true) ==> (go <==> left > 0)
    ensures qty > 0 && Sides(side) && (market == "KR" || Truthy(px0)) && attempts == [] ==>
      att.failed == Settle(broker.script.replies, 0, TRIES).0.Raised?
      && (att.failed ==> |broker.orders| == if Settle(broker.script.replies, 0, TRIES).0.taken then 1 else 0)
  {
    hide Settle, SubmittedOf, Outstanding;
    att, left, go := Attempt(remaining, false, None, None, None), remaining, false;
    var px := px0;
    if market != "KR" {
      if !(attempts == [] && Truthy(px0)) {
        px := broker.PriceAndExchange();
      }
      if !Truthy(px) {
        att := att.(failed := true);
        return;
      }
    }
    if !Sides(side) || remaining <= 0 {
      att := att.(failed := true);
      return;
    }
    att, left, go := Submit(broker, market, side, qty, remaining, base, window);
  }

  /** The loop: turn after turn until one does not go on, at most as many as allowed. */
  method Attempts(broker: Broker, market: string, side: string, qty: int, px0: Option<real>, limit: int, base: real,
                  window: int) returns (attempts: seq<Attempt>, remaining: int)
    requires Between(broker, side, qty, [], qty) && base == broker.start && broker.buying == (side == "BUY")
    modifies broker`orders, broker`filled, broker`moments, broker`looks, broker`posts, broker`peak, broker`observed,
             broker`asked, broker`readsBefore
    ensures (broker.Now(), attempts, remaining)
         == ChasedFrom(broker.script, old(broker.Now()), market, side, qty, px0, [], qty, limit, window)
    ensures Chased(broker, side, qty, attempts, remaining)
    ensures if limit > 0 then 0 < |attempts| <= limit && attempts[0].qty == qty else attempts == []
    ensures attempts != [] && Reopened(attempts) && remaining > 0 ==> |attempts| == limit
    ensures attempts != [] && FirstIsSent(market, side, qty, px0) ==>
      && attempts[0].failed == Settle(broker.script.replies, 0, TRIES).0.Raised?
      && (attempts[0].failed ==> |broker.orders| == if Settle(broker.script.replies, 0, TRIES).0.taken then 1 else 0)
  {
    hide Settle, Between, Chased, TurnOf, ChasedFrom;
    attempts, remaining := [], qty;
    var n := 0;
    var go := true;
    while n < limit && go
      invariant n == |attempts| && (n > 0 ==> n <= limit)
      invariant ChasedFrom(broker.script, old(broker.Now()), market, side, qty, px0, [], qty, limit, window)
             == if !go then (broker.Now(), attempts, remaining)
                else ChasedFrom(broker.script, broker.Now(), market, side, qty, px0, attempts, remaining, limit,
                                window)
      invariant n == 0 ==> go && remaining == qty
      invariant n > 0 ==> attempts[0].qty == qty && (!go && Reopened(attempts) ==> remaining <= 0)
      invariant if go then Between(broker, side, qty, attempts, remaining)
                else Chased(broker, side, qty, attempts, remaining) && attempts != []
      invariant n > 0 && FirstIsSent(market, side, qty, px0) ==>
        attempts[0].failed == Settle(broker.script.replies, 0, TRIES).0.Raised?
      invariant n == 1 && FirstIsSent(market, side, qty, px0) && attempts[0].failed ==>
        |broker.orders| == if Settle(broker.script.replies, 0, TRIES).0.taken then 1 else 0
      decreases limit - n
    {
      var att;
      ghost var here, missing := broker.Now(), remaining;
      att, remaining, go := Turn(broker, market, side, qty, px0, attempts, remaining, base, window);
      ChasedFromHere(broker.script, here, market, side, qty, px0, attempts, missing, limit, window, broker.Now(), att,
                     remaining, go);
      attempts := attempts + [att];
      n := n + 1;
    }
    if go {
      OutOfTurns(broker.script, broker.Now(), market, side, qty, px0, attempts, remaining, limit, window);
      NothingMoreToTry(broker, side, qty, attempts, remaining);
    }
    ChaseReport(broker, side, qty, attempts, remaining);
  }

  method PlaceAndChase(broker: Broker, market: string, side: string, qty: int, refPrice: Option<real>,
                       hasExchange: bool, maxAttempts: int, window: int) returns (report: Report)
    requires broker.Untouched() && broker.peak == 0 && broker.observed == [] && broker.buying == (side == "BUY")
    modifies broker`orders, broker`filled, broker`moments, broker`looks, broker`posts, broker`peak, broker`observed,
             broker`asked, broker`readsBefore
    ensures (broker.Now(), report)
         == ChaseOf(broker.script, old(broker.Now()), market, side, qty, refPrice, hasExchange, maxAttempts, window)
    // A failed baseline read propagates before anything is sent.
    ensures report.Propagated? ==> broker.Untouched()
    // At no moment could more than the requested quantity be filled or still fill.
    ensures broker.Valid() && broker.peak <= if qty > 0 then qty else 0
    // What is reported was really filled; FILLED is all of it.
    ensures report.Report? ==> report.requested == qty && (qty > 0 ==> 0 <= report.filled <= broker.filled <= qty)
    ensures report.Report? && qty > 0 ==>
      (report.status.FILLED? <==> report.filled == qty) && (report.status.FILLED? ==> broker.filled == qty)
    ensures report.Report? && qty > 0 ==> (report.status.PARTIAL? <==> 0 < report.filled < qty)
    // It is the last balance that could be read, unless the last attempt was taken and not rechecked: then it is what
    // that attempt's own polling saw, which is nothing when none of its reads succeeded.
    ensures report.Report? ==> broker.observed != []
    ensures report.Report? && (report.attempts == [] || Rechecked(report.attempts)) ==>
      report.filled == broker.observed[|broker.observed| - 1]
    ensures report.Report? && report.attempts != [] && !Rechecked(report.attempts) ==>
      report.attempts[|report.attempts| - 1].filledTotal == Some(report.filled)
    // So it falls back to nothing exactly when the last attempt was taken and no balance could be read since its order.
    ensures report.Report? ==>
      report.filled == if FallsBack(broker, report.attempts) then 0 else broker.observed[|broker.observed| - 1]
    // A non-positive quantity or an unknown side never reaches the broker; the former reads as FILLED.
    ensures qty <= 0 || (side != "BUY" && side != "SELL") ==> broker.posts == 0 && broker.orders == []
    ensures report.Report? && qty <= 0 ==> report.status.FILLED? && report.filled == 0
    // REJECTED: one attempt. An order is on the book all the same exactly when its submission raised after being taken.
    ensures report.Report? && report.status.REJECTED? ==>
      && |report.attempts| == 1 && report.attempts[0].failed
      && (broker.orders != [] <==> broker.posts > 0 && Settle(broker.script.replies, 0, TRIES).0 == Raised(true))
    ensures report.Report? && qty > 0 && (side == "BUY" || side == "SELL")
            && Direct(market, hasExchange, refPrice, maxAttempts)
            && Settle(broker.script.replies, 0, TRIES).0.Raised? ==>
      report.status.REJECTED? && |broker.orders| == if Settle(broker.script.replies, 0, TRIES).0.taken then 1 else 0
    // Only a US order is chased: one attempt otherwise, never more than allowed, each for what was still missing.
    ensures report.Report? ==>
      |report.attempts| <= if market == "US" then (if maxAttempts > 0 then maxAttempts else 0) else 1
    ensures report.Report? && report.attempts != [] ==> report.attempts[0].qty == qty
    // And while one more is allowed, safe and needed, it is made: a chase never stops early.
    ensures report.Report? && (if market == "US" then maxAttempts else 1) > 0 ==> report.attempts != []
    ensures report.Report? && report.attempts != [] && report.filled < qty && Reopened(report.attempts) ==>
      |report.attempts| == if market == "US" then maxAttempts else 1
    ensures report.Report? ==> forall i :: 0 <= i < |report.attempts| - 1 ==>
      && !report.attempts[i].failed && report.attempts[i].cancelled == Some(true)
      && report.attempts[i].rechecked == Some(true)
    ensures report.Report? && report.attempts != [] ==>
      var last := report.attempts[|report.attempts| - 1];
      last.cancelled == last.rechecked == Some(true) ==>
        Outstanding(broker.orders) == 0 && report.filled == broker.filled
  {
    hide Settle, Between, Chased, Balanced, ChasedFrom, StatusOf, FallsBack, Rechecked;
    var px0 := refPrice;
    if market == "US" && !hasExchange {
      px0 := broker.PriceAndExchange();
      if px0.None? {
        return Propagated;
      }
    }
    var held := broker.Balance();
    if held.None? {
      return Propagated;
    }
    var base := held.value;
    ReadyToChase(broker, side, qty);
    var attempts, remaining := Attempts(broker, market, side, qty, px0, if market == "US" then maxAttempts else 1, base,
                                        window);
    ChaseReport(broker, side, qty, attempts, remaining);
    StatusMeans(qty, remaining, attempts);
    return Report(StatusOf(qty, remaining, attempts), qty, qty - remaining, attempts);
  }

  /** The first order goes out with a price in hand. */
  predicate FirstIsSent(market: string, side: string, qty: int, px0: Option<real>) {
    qty > 0 && Sides(side) && (market == "KR" || Truthy(px0))
  }

  lemma ReadyToChase(broker: Broker, side: string, qty: int)
    requires broker.Valid() && broker.Untouched() && broker.peak == 0 && broker.observed == [0]
    ensures Between(broker, side, qty, [], qty)
  {
  }

  /** What the chase can say once its attempts are over. */
  lemma ChaseReport(broker: Broker, side: string, qty: int, attempts: seq<Attempt>, remaining: int)
    requires Chased(broker, side, qty, attempts, remaining)
    ensures broker.Valid() && broker.peak <= (if qty > 0 then qty else 0) && broker.observed != []
    ensures qty <= 0 || !Sides(side) ==> broker.posts == 0 && broker.orders == [] && remaining == qty
    ensures qty > 0 ==> 0 <= qty - remaining <= broker.filled <= qty
    ensures if attempts == [] || Rechecked(attempts) then qty - remaining == broker.observed[|broker.observed| - 1]
            else attempts[|attempts| - 1].filledTotal == Some(qty - remaining)
    ensures qty - remaining == if FallsBack(broker, attempts) then 0 else broker.observed[|broker.observed| - 1]
    ensures forall i :: 0 <= i < |attempts| - 1 ==>
      !attempts[i].failed && attempts[i].cancelled == attempts[i].rechecked == Some(true)
    ensures attempts != [] && attempts[|attempts| - 1].cancelled == attempts[|attempts| - 1].rechecked == Some(true) ==>
      Outstanding(broker.orders) == 0 && qty - remaining == broker.filled
    ensures attempts != [] && attempts[0].failed ==>
      && |attempts| == 1 && remaining == qty
      && (broker.orders != [] <==> broker.posts > 0 && Settle(broker.script.replies, 0, TRIES).0 == Raised(true))
  {
    NothingOpen(broker.orders);
  }

  // ----- What a broker can make of it -----

  /** REJECTED is no proof that nothing was taken: one answer lost after the broker took the order is enough. */
  lemma RejectedButOnTheBook(script: Script, qty: nat, refPrice: Option<real>, window: int)
    requires qty > 0 && script.readable(0) && script.replies(0) == Failed(true)
    ensures var (b, report) := ChaseOf(script, UNTOUCHED, "KR", "BUY", qty, refPrice, false, 3, window);
      report == Report(REJECTED, qty, 0, [Attempt(qty, true, None, None, None)]) && b.orders == [qty] && b.filled == 0
  {
    var b := Balanced(script, UNTOUCHED).0;
    assert Traded(script, b).orders == [];
    var sent := Posted(script, b, Order(qty)).0;
    assert PostedUntil(script, b, Order(qty), TRIES) == (sent, Raised(true));
    assert [] + [Attempt(qty, true, None, None, None)] == [Attempt(qty, true, None, None, None)];
  }

  /** Three of ten shares fill and are read twice; of the second attempt no balance can be read, and its cancel
      fails. */
  const FORGETFUL := Script(
    n => if n < 3 then Confirmed else Failed(false),
    (moment, order) => Move(if moment == 2 && order == 0 then 3 else 0, 0),
    n => n < 3,
    n => Some(1.0))

  const FIRST_TRY := Attempt(10, false, Some(3), Some(true), Some(true))
  const SECOND_TRY := Attempt(7, false, Some(0), Some(false), Some(false))

  /** The report falls back to nothing after the chase itself has seen fills. */
  lemma ReportForgetsFills()
    ensures var (b, report) := ChaseOf(FORGETFUL, UNTOUCHED, "US", "BUY", 10, Some(1.0), true, 2, 2);
      report == Report(UNFILLED, 10, 0, [FIRST_TRY, SECOND_TRY]) && b.filled == 3
  {
    hide ChasedFrom, TurnOf;
    var begun := Standing(0, 1, 1, 0, [], 0);
    assert Balanced(FORGETFUL, UNTOUCHED) == (begun, Some(0));
    FirstTry(begun, 10, 2);
    SecondTry(10, 2);
    TwoTurns(begun, Standing(2, 5, 3, 0, [0], 3), Standing(4, 9, 5, 1, [0, 7], 3), 10, 2, 2);
  }

  lemma TwoTurns(begun: Standing, between: Standing, done: Standing, qty: int, limit: int, window: int)
    requires limit == 2
    requires TurnOf(FORGETFUL, begun, "US", "BUY", qty, Some(1.0), true, qty, window) == (between, FIRST_TRY, 7, true)
    requires TurnOf(FORGETFUL, between, "US", "BUY", qty, Some(1.0), false, 7, window) == (done, SECOND_TRY, qty, false)
    ensures ChasedFrom(FORGETFUL, begun, "US", "BUY", qty, Some(1.0), [], qty, limit, window)
         == (done, [FIRST_TRY, SECOND_TRY], qty)
  {
    hide TurnOf;
    assert [] + [FIRST_TRY] == [FIRST_TRY] && [FIRST_TRY] + [SECOND_TRY] == [FIRST_TRY, SECOND_TRY];
  }

  /** A quiet moment: nothing moves. */
  lemma Quiet(b: Standing, n: nat)
    requires n <= |b.orders| && b.moments != 2
    ensures Moved(FORGETFUL, b, n) == b
  {
    if n > 0 {
      Quiet(b, n - 1);
      assert b.orders[n - 1 := b.orders[n - 1]] == b.orders;
    }
  }

  lemma FirstTry(begun: Standing, qty: int, window: int)
    requires begun == Standing(0, 1, 1, 0, [], 0) && qty == 10 && window == 2
    ensures TurnOf(FORGETFUL, begun, "US", "BUY", qty, Some(1.0), true, qty, window)
         == (Standing(2, 5, 3, 0, [0], 3), FIRST_TRY, 7, true)
  {
    hide Moved, Polled;
    var sent, polled := Standing(1, 2, 1, 0, [10], 0), Standing(1, 3, 2, 0, [7], 3);
    var cancelled := Standing(2, 4, 2, 0, [0], 3);
    Quiet(begun, 0);
    assert [] + [10] == [10];
    assert Posted(FORGETFUL, begun, Order(10)) == (sent, Confirmed);
    assert PostedUntil(FORGETFUL, begun, Order(10), TRIES) == (sent, Accepted);
    ThreeFill(sent, 1);
    assert Balanced(FORGETFUL, sent) == (polled, Some(3));
    PollsOnce(sent, qty, window, 3);
    Quiet(polled, 1);
    assert [7][0 := 0] == [0];
    assert Posted(FORGETFUL, polled, Cancel(0)) == (cancelled, Confirmed);
    assert PostedUntil(FORGETFUL, polled, Cancel(0), TRIES) == (cancelled, Accepted);
    Quiet(cancelled, 1);
    assert Balanced(FORGETFUL, cancelled) == (Standing(2, 5, 3, 0, [0], 3), Some(3));
  }

  lemma ThreeFill(b: Standing, n: nat)
    requires b.orders == [10] && b.moments == 2 && n == 1
    ensures Moved(FORGETFUL, b, n) == b.(orders := [7], filled := b.filled + 3)
  {
    assert Moved(FORGETFUL, b, n - 1) == b;
  }

  /** A window that one delay uses up. */
  lemma PollsOnce(b: Standing, want: int, window: int, seen: int)
    requires window == 2 && seen < want
    requires Balanced(FORGETFUL, b).1 == if seen == 0 then None else Some(seen)
    ensures Polled(FORGETFUL, b, want, window, 0, 0, 0) == (Balanced(FORGETFUL, b).0, seen)
  {
    hide Balanced;
    var delay := PollDelay(0);
    var c := Balanced(FORGETFUL, b).0;
    assert Polled(FORGETFUL, c, want, window, delay, 1, seen) == (c, seen);
  }

  lemma SecondTry(qty: int, window: int)
    requires qty == 10 && window == 2
    ensures TurnOf(FORGETFUL, Standing(2, 5, 3, 0, [0], 3), "US", "BUY", qty, Some(1.0), false, 7, window)
         == (Standing(4, 9, 5, 1, [0, 7], 3), SECOND_TRY, qty, false)
  {
    hide Moved, Polled;
    var asked, sent := Standing(2, 5, 3, 1, [0], 3), Standing(3, 6, 3, 1, [0, 7], 3);
    var polled, cancelled := Standing(3, 7, 4, 1, [0, 7], 3), Standing(4, 8, 4, 1, [0, 7], 3);
    Quiet(asked, 1);
    assert [0] + [7] == [0, 7];
    assert Posted(FORGETFUL, asked, Order(7)) == (sent, Confirmed);
    assert PostedUntil(FORGETFUL, asked, Order(7), TRIES) == (sent, Accepted);
    Quiet(sent, 2);
    assert Balanced(FORGETFUL, sent) == (polled, None);
    PollsOnce(sent, qty, window, 0);
    Quiet(polled, 2);
    assert Posted(FORGETFUL, polled, Cancel(1)) == (cancelled, Failed(false));
    assert PostedUntil(FORGETFUL, polled, Cancel(1), TRIES) == (cancelled, Raised(false));
    Quiet(cancelled, 2);
    assert Balanced(FORGETFUL, cancelled) == (Standing(4, 9, 5, 1, [0, 7], 3), None);
  }
}
