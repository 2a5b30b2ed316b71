/** One-minute candles: ticks folded in memory, changed candles written on flush, old ones evicted. */
module Candle {
  import opened Dict

  /** trade_ts in seconds; the window is the minute it falls in. */
  datatype Tick = Tick(symbol: string, ts: int, price: real, volume: real)
  datatype Candle = Candle(open: real, high: real, low: real, close: real, volume: real)
  type Key = (string, int)

  const WATERMARK := 2

  function FloorMinute(ts: int): (m: int)
    ensures m * 60 <= ts < m * 60 + 60
  {
    ts / 60
  }

  function KeyOf(t: Tick): Key { (t.symbol, FloorMinute(t.ts)) }

  function Opened(t: Tick): Candle { Candle(t.price, t.price, t.price, t.price, t.volume) }

  function Updated(c: Candle, t: Tick): Candle {
    Candle(c.open, if c.high < t.price then t.price else c.high, if t.price < c.low then t.price else c.low, t.price,
           c.volume + t.volume)
  }

  /** Bad messages are skipped, so they are not events. */
  datatype Event = Traded(t: Tick) | Flush

  datatype State = State(candles: map<Key, Candle>, dirty: set<Key>, maxWindow: Option<int>, table: map<Key, Candle>)

  const EMPTY := State(map[], {}, None, map[])

  function AfterTick(s: State, t: Tick): State {
    var k, w := KeyOf(t), FloorMinute(t.ts);
    State(s.candles[k := if k in s.candles then Updated(s.candles[k], t) else Opened(t)], s.dirty + {k},
          if s.maxWindow.None? || w > s.maxWindow.value then Some(w) else s.maxWindow, s.table)
  }

  /** The rows written: the latest insert for a key replaces the earlier one. */
  function Written(table: map<Key, Candle>, candles: map<Key, Candle>, keys: set<Key>): map<Key, Candle> {
    table + map k | k in keys && k in candles :: candles[k]
  }

  function Evicted(candles: map<Key, Candle>, maxWindow: Option<int>): map<Key, Candle> {
    if maxWindow.None? then candles
    else map k | k in candles && k.1 >= maxWindow.value - WATERMARK :: candles[k]
  }

  function AfterFlush(s: State): State {
    State(Evicted(s.candles, s.maxWindow), {}, s.maxWindow, Written(s.table, s.candles, s.dirty))
  }

  function Run(events: seq<Event>, n: nat): State
    requires n <= |events|
  {
    if n == 0 then EMPTY
    else
      var s := Run(events, n - 1);
      match events[n - 1] case Traded(t) => AfterTick(s, t) case Flush => AfterFlush(s)
  }

  class Aggregator {
    var candles: map<Key, Candle>
    var dirty: set<Key>
    var maxWindow: Option<int>
    /** The ClickHouse table, merged. */
    var table: map<Key, Candle>

    constructor ()
      ensures Value() == EMPTY
    {
      candles, dirty, maxWindow, table := map[], {}, None, map[];
    }

    function Value(): State
      reads this
    {
      State(candles, dirty, maxWindow, table)
    }

    method OnTick(t: Tick)
      modifies this
      ensures Value() == AfterTick(old(Value()), t)
    {
      var w := FloorMinute(t.ts);
      if maxWindow.None? || w > maxWindow.value {
        maxWindow := Some(w);
      }
      var k := (t.symbol, w);
      if k !in candles {
        candles := candles[k := Opened(t)];
      } else {
        candles := candles[k := Updated(candles[k], t)];
      }
      dirty := dirty + {k};
    }

    method FlushAndEvict()
      modifies this
      ensures Value() == AfterFlush(old(Value()))
    {
      if dirty != {} {
        table := Written(table, candles, dirty);
        dirty := {};
      }
      if maxWindow.Some? {
        var cutoff := maxWindow.value - WATERMARK;
        candles := map k | k in candles && k.1 >= cutoff :: candles[k];
      }
      assert Written(old(table), old(candles), {}) == old(table);
    }
  }

  // ----- What a candle is: the fold of all ticks of its key -----

  function Fold(ticks: seq<Tick>): Candle
    requires ticks != []
  {
    if |ticks| == 1 then Opened(ticks[0]) else Updated(Fold(ticks[..|ticks| - 1]), ticks[|ticks| - 1])
  }

  function Volume(ticks: seq<Tick>): real {
    if ticks == [] then 0.0 else Volume(ticks[..|ticks| - 1]) + ticks[|ticks| - 1].volume
  }

  /** First and last price, extremes that occur, and the traded volume. */
  lemma {:induction false} FoldIsOhlcv(ticks: seq<Tick>)
    requires ticks != []
    ensures var c := Fold(ticks);
      && c.open == ticks[0].price && c.close == ticks[|ticks| - 1].price && c.volume == Volume(ticks)
      && (forall i :: 0 <= i < |ticks| ==> c.low <= ticks[i].price <= c.high)
      && (exists i :: 0 <= i < |ticks| && ticks[i].price == c.high)
      && (exists i :: 0 <= i < |ticks| && ticks[i].price == c.low)
  {
    var n := |ticks| - 1;
    if n > 0 {
      var front, last := ticks[..n], ticks[n];
      FoldIsOhlcv(front);
      var c := Fold(front);
      var top :| 0 <= top < n && front[top].price == c.high;
      var bottom :| 0 <= bottom < n && front[bottom].price == c.low;
      assert ticks[if c.high < last.price then n else top].price == Fold(ticks).high;
      assert ticks[if last.price < c.low then n else bottom].price == Fold(ticks).low;
    } else {
      assert ticks[0].price == Fold(ticks).high == Fold(ticks).low;
      assert ticks[..0] == [];
    }
  }

  /** Every tick of a key so far. */
  function AllOf(events: seq<Event>, n: nat, k: Key): seq<Tick>
    requires n <= |events|
  {
    if n == 0 then []
    else
      var front, e := AllOf(events, n - 1, k), events[n - 1];
      if e.Traded? && KeyOf(e.t) == k then front + [e.t] else front
  }

  /** Some tick of the key came after its candle had been evicted, and started a second candle. */
  predicate Reopened(events: seq<Event>, n: nat, k: Key)
    requires n <= |events|
  {
    n > 0 && (Reopened(events, n - 1, k)
              || (events[n - 1].Traded? && KeyOf(events[n - 1].t) == k
                  && k !in Run(events, n - 1).candles && AllOf(events, n - 1, k) != []))
  }

  ghost predicate PositiveVolumes(events: seq<Event>) {
    forall i :: 0 <= i < |events| && events[i].Traded? ==> events[i].t.volume > 0.0
  }

  /** One stored or held candle against all the ticks: the whole fold or, once reopened, too little volume
      (provided that every tick carries some). */
  predicate Faithful(c: Candle, ticks: seq<Tick>, reopened: bool, positive: bool) {
    ticks != [] && if reopened then positive ==> c.volume < Volume(ticks) else c == Fold(ticks)
  }

  /** Between flushes, for one key. */
  predicate Sound(s: State, k: Key, ticks: seq<Tick>, reopened: bool, positive: bool) {
    && s.dirty <= s.candles.Keys
    && (ticks == [] ==> k !in s.table && k !in s.candles && !reopened)
    && (k in s.candles ==> Faithful(s.candles[k], ticks, reopened, positive))
    && (k !in s.candles && ticks != [] ==> k in s.table && Faithful(s.table[k], ticks, reopened, positive))
    && (k in s.candles && k !in s.dirty ==> k in s.table && s.table[k] == s.candles[k])
  }

  lemma {:induction false} VolumeIsPositive(events: seq<Event>, n: nat, k: Key)
    requires n <= |events| && PositiveVolumes(events)
    ensures AllOf(events, n, k) != [] ==> Volume(AllOf(events, n, k)) > 0.0
    ensures Volume(AllOf(events, n, k)) >= 0.0
  {
    if n > 0 {
      VolumeIsPositive(events, n - 1, k);
      var e := events[n - 1];
      if e.Traded? && KeyOf(e.t) == k {
        assert (AllOf(events, n - 1, k) + [e.t])[..|AllOf(events, n - 1, k)|] == AllOf(events, n - 1, k);
      }
    }
  }

  lemma TickKeepsSound(s: State, t: Tick, k: Key, ticks: seq<Tick>, reopened: bool, positive: bool)
    requires Sound(s, k, ticks, reopened, positive) && KeyOf(t) == k
    requires positive && ticks != [] ==> Volume(ticks) > 0.0
    ensures Sound(AfterTick(s, t), k, ticks + [t], reopened || (k !in s.candles && ticks != []), positive)
  {
    assert (ticks + [t])[..|ticks|] == ticks;
  }

  lemma OtherTickKeepsSound(s: State, t: Tick, k: Key, ticks: seq<Tick>, reopened: bool, positive: bool)
    requires Sound(s, k, ticks, reopened, positive) && KeyOf(t) != k
    ensures Sound(AfterTick(s, t), k, ticks, reopened, positive)
  {
    hide Faithful;
  }

  lemma FlushKeepsSound(s: State, k: Key, ticks: seq<Tick>, reopened: bool, positive: bool)
    requires Sound(s, k, ticks, reopened, positive)
    ensures Sound(AfterFlush(s), k, ticks, reopened, positive)
  {
    hide Faithful;
  }

  lemma {:induction false} RunIsSound(events: seq<Event>, n: nat, k: Key, positive: bool)
    requires n <= |events| && (positive ==> PositiveVolumes(events))
    ensures Sound(Run(events, n), k, AllOf(events, n, k), Reopened(events, n, k), positive)
  {
    hide Sound, AfterTick, AfterFlush;
    if n == 0 {
      NothingYet(k, positive);
    } else {
      RunIsSound(events, n - 1, k, positive);
      if positive {
        VolumeIsPositive(events, n - 1, k);
      }
      var s := Run(events, n - 1);
      match events[n - 1]
      case Traded(t) =>
        if KeyOf(t) == k {
          TickKeepsSound(s, t, k, AllOf(events, n - 1, k), Reopened(events, n - 1, k), positive);
        } else {
          OtherTickKeepsSound(s, t, k, AllOf(events, n - 1, k), Reopened(events, n - 1, k), positive);
        }
      case Flush =>
        FlushKeepsSound(s, k, AllOf(events, n - 1, k), Reopened(events, n - 1, k), positive);
    }
  }

  lemma NothingYet(k: Key, positive: bool)
    ensures Sound(EMPTY, k, [], false, positive)
  {
  }

  /** After a flush the stored row is the fold of all the key's ticks exactly when none came after its eviction. */
  lemma RowIsWholeFoldIff(events: seq<Event>, n: nat, k: Key)
    requires 0 < n <= |events| && PositiveVolumes(events) && events[n - 1].Flush? && AllOf(events, n, k) != []
    ensures var table := Run(events, n).table;
      k in table && (table[k] == Fold(AllOf(events, n, k)) <==> !Reopened(events, n, k))
  {
    RunIsSound(events, n, k, true);
    FoldIsOhlcv(AllOf(events, n, k));
  }

  /** A tick of minute 0 after minute 5 was flushed starts its candle again, and the row loses the first volume. */
  lemma LateTickReopens() returns (events: seq<Event>, k: Key)
    ensures var n := |events|;
      && PositiveVolumes(events) && n > 0 && events[n - 1].Flush? && Reopened(events, n, k)
      && k in Run(events, n).table && Run(events, n).table[k].volume == 1.0 < Volume(AllOf(events, n, k))
  {
    events := [Traded(Tick("x", 0, 1.0, 2.0)), Traded(Tick("x", 300, 1.0, 1.0)), Flush,
               Traded(Tick("x", 30, 1.0, 1.0)), Flush];
    k := ("x", 0);
    var n := |events|;
    assert Run(events, n - 5) == EMPTY && AllOf(events, n - 5, k) == [];
    assert AllOf(events, n - 4, k) == [events[0].t];
    assert AllOf(events, n - 3, k) == AllOf(events, n - 2, k) == [events[0].t];
    assert Run(events, n - 3).candles.Keys == {k, ("x", 5)} && Run(events, n - 3).maxWindow == Some(5);
    assert k !in Run(events, n - 2).candles;
    assert Run(events, n - 1).candles[k] == Opened(events[3].t);
    assert Reopened(events, n - 1, k);
    assert AllOf(events, n, k) == [events[0].t, events[3].t];
    assert AllOf(events, n, k)[..1] == [events[0].t];
  }

  /** Ticks no older than the watermark of what was seen before them. */
  ghost predicate OnTime(events: seq<Event>) {
    forall i :: 0 <= i < |events| && events[i].Traded? ==>
      var seen := Run(events, i).maxWindow;
      seen.Some? ==> FloorMinute(events[i].t.ts) >= seen.value - WATERMARK
  }

  /** A key no longer held lies behind the watermark. */
  lemma {:induction false} EvictedIsOld(events: seq<Event>, n: nat, k: Key)
    requires n <= |events| && AllOf(events, n, k) != [] && k !in Run(events, n).candles
    ensures Run(events, n).maxWindow.Some? && k.1 < Run(events, n).maxWindow.value - WATERMARK
  {
    if AllOf(events, n - 1, k) != [] && k !in Run(events, n - 1).candles {
      EvictedIsOld(events, n - 1, k);
    } else if events[n - 1].Flush? {
      HeldKnowsMax(events, n - 1);
    }
  }

  lemma {:induction false} HeldKnowsMax(events: seq<Event>, n: nat)
    requires n <= |events|
    ensures Run(events, n).maxWindow.None? ==> Run(events, n).candles == map[]
    ensures forall k :: k in Run(events, n).candles ==> AllOf(events, n, k) != []
  {
    if n > 0 {
      HeldKnowsMax(events, n - 1);
    }
  }

  /** The largest minute any tick has fallen in. */
  lemma {:induction false} MaxWindowIsLatest(events: seq<Event>, n: nat)
    requires n <= |events|
    ensures var top := Run(events, n).maxWindow;
      && (forall i :: 0 <= i < n && events[i].Traded? ==> top.Some? && FloorMinute(events[i].t.ts) <= top.value)
      && (top.Some? ==> exists i :: 0 <= i < n && events[i].Traded? && FloorMinute(events[i].t.ts) == top.value)
  {
    hide FloorMinute;
    if n > 0 {
      MaxWindowIsLatest(events, n - 1);
    }
  }

  /** A flush keeps exactly the held candles of the latest minute and the two before it. */
  lemma FlushKeepsRecent(events: seq<Event>, n: nat, k: Key)
    requires n < |events| && events[n].Flush?
    ensures k in Run(events, n + 1).candles <==>
              k in Run(events, n).candles && Run(events, n).maxWindow.Some? && k.1 + 2 >= Run(events, n).maxWindow.value
    ensures k in Run(events, n + 1).candles ==> Run(events, n + 1).candles[k] == Run(events, n).candles[k]
  {
    hide FloorMinute;
    HeldKnowsMax(events, n);
  }

  lemma {:induction false} OnTimeNeverReopens(events: seq<Event>, n: nat, k: Key)
    requires n <= |events| && OnTime(events)
    ensures !Reopened(events, n, k)
  {
    if n > 0 {
      OnTimeNeverReopens(events, n - 1, k);
      if events[n - 1].Traded? && KeyOf(events[n - 1].t) == k && AllOf(events, n - 1, k) != []
         && k !in Run(events, n - 1).candles {
        EvictedIsOld(events, n - 1, k);
      }
    }
  }

  /** Ticks within the watermark: after every flush each stored row is the fold of all its ticks. */
  lemma TableIsFold(events: seq<Event>, n: nat, k: Key)
    requires 0 < n <= |events| && OnTime(events) && events[n - 1].Flush?
    ensures var table := Run(events, n).table;
      && (k in table <==> AllOf(events, n, k) != [])
      && (k in table ==> table[k] == Fold(AllOf(events, n, k)))
  {
    RunIsSound(events, n, k, false);
    OnTimeNeverReopens(events, n, k);
  }

  /** Writing the changed candles is as good as writing all of them, and what is evicted has been written. */
  lemma DirtyIsEnough(events: seq<Event>, n: nat)
    requires n <= |events|
    ensures var s := Run(events, n);
      && Written(s.table, s.candles, s.dirty) == Written(s.table, s.candles, s.candles.Keys)
      && forall k :: k in s.candles ==> k in AfterFlush(s).table && AfterFlush(s).table[k] == s.candles[k]
  {
    var s := Run(events, n);
    forall k {
      RunIsSound(events, n, k, false);
    }
  }
}
