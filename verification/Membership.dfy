/** Index membership from dated snapshots: membership intervals and add/drop events. Dates are day numbers. */
module Membership {
  datatype Snapshot = Snapshot(date: int, members: set<string>)
  datatype Interval = Interval(symbol: string, start: int, end: int)
  datatype Change = Change(date: int, symbol: string, add: bool)

  /** What the collector hands over: responses without members are dropped, dates rise, and all lie before the
      open-ended mark. */
  predicate Collected(snaps: seq<Snapshot>, far: int) {
    && (forall k :: 0 <= k < |snaps| ==> snaps[k].members != {} && snaps[k].date < far)
    && forall j, k :: 0 <= j < k < |snaps| ==> snaps[j].date < snaps[k].date
  }

  predicate Covered(intervals: seq<Interval>, symbol: string, d: int) {
    exists i :: 0 <= i < |intervals| && intervals[i].symbol == symbol && intervals[i].start <= d <= intervals[i].end
  }

  lemma CoveredAppend(intervals: seq<Interval>, x: Interval)
    ensures forall s, d ::
      Covered(intervals + [x], s, d) <==> Covered(intervals, s, d) || (x.symbol == s && x.start <= d <= x.end)
  {
    forall s, d
      ensures Covered(intervals + [x], s, d) <==> Covered(intervals, s, d) || (x.symbol == s && x.start <= d <= x.end)
    {
      assert (intervals + [x])[|intervals|] == x;
      if Covered(intervals, s, d) {
        var i :| 0 <= i < |intervals| && intervals[i].symbol == s && intervals[i].start <= d <= intervals[i].end;
        assert (intervals + [x])[i] == intervals[i];
      }
    }
  }

  /** Intervals of one symbol never share a day: a later one starts after an earlier one ends. */
  predicate Disjoint(intervals: seq<Interval>) {
    && (forall i :: 0 <= i < |intervals| ==> intervals[i].start <= intervals[i].end)
    && forall i, j :: 0 <= i < j < |intervals| && intervals[i].symbol == intervals[j].symbol ==>
         intervals[i].end < intervals[j].start
  }

  /** The members after the first n events. */
  function Replay(first: set<string>, changes: seq<Change>, n: nat): set<string>
    requires n <= |changes|
  {
    if n == 0 then first
    else
      var c := changes[n - 1];
      if c.add then Replay(first, changes, n - 1) + {c.symbol} else Replay(first, changes, n - 1) - {c.symbol}
  }

  /** Every event does something: it adds a symbol that was out, or drops one that was in. */
  predicate Effective(first: set<string>, changes: seq<Change>) {
    forall i :: 0 <= i < |changes| ==> (changes[i].add <==> changes[i].symbol !in Replay(first, changes, i))
  }

  lemma {:induction false} ReplayPrefix(first: set<string>, changes: seq<Change>, more: seq<Change>, n: nat)
    requires n <= |changes|
    ensures Replay(first, changes + more, n) == Replay(first, changes, n)
  {
    if n > 0 {
      ReplayPrefix(first, changes, more, n - 1);
    }
  }

  lemma AppendEvent(first: set<string>, changes: seq<Change>, c: Change)
    ensures var now := Replay(first, changes, |changes|); var after := changes + [c];
      && Replay(first, after, |after|) == (if c.add then now + {c.symbol} else now - {c.symbol})
      && (Effective(first, changes) && (c.add <==> c.symbol !in now) ==> Effective(first, after))
  {
    var after := changes + [c];
    forall i | 0 <= i <= |changes| {
      ReplayPrefix(first, changes, [c], i);
    }
    assert forall i :: 0 <= i < |changes| ==> after[i] == changes[i];
  }

  /** for sym in cur - prev. */
  method Admit(d: int, entering: set<string>, baseline: bool, openStart: map<string, int>, changes: seq<Change>,
               ghost first: set<string>)
    returns (starts: map<string, int>, events: seq<Change>)
    requires Effective(first, changes) && (!baseline ==> entering !! Replay(first, changes, |changes|))
    ensures starts.Keys == openStart.Keys + entering
    ensures forall s :: s in starts ==> starts[s] == if s in entering then d else openStart[s]
    ensures changes <= events && forall i :: |changes| <= i < |events| ==> events[i].date == d
    ensures Effective(first, events)
    ensures if baseline then events == changes
            else Replay(first, events, |events|) == Replay(first, changes, |changes|) + entering
  {
    starts, events := openStart, changes;
    var todo := entering;
    while todo != {}
      invariant todo <= entering && starts.Keys == openStart.Keys + (entering - todo)
      invariant forall s :: s in starts ==> starts[s] == if s in entering - todo then d else openStart[s]
      invariant changes <= events && forall i :: |changes| <= i < |events| ==> events[i].date == d
      invariant Effective(first, events)
      invariant if baseline then events == changes
                else Replay(first, events, |events|) == Replay(first, changes, |changes|) + (entering - todo)
    {
      var sym :| sym in todo;
      todo := todo - {sym};
      starts := starts[sym := d];
      if !baseline {
        AppendEvent(first, events, Change(d, sym, true));
        events := events + [Change(d, sym, true)];
      }
    }
  }

  /** Membership of the closed intervals and the open ones together, on a given day. */
  predicate Member(intervals: seq<Interval>, openStart: map<string, int>, s: string, d: int) {
    Covered(intervals, s, d) || (s in openStart && openStart[s] <= d)
  }

  /** Closed intervals are disjoint, over before today, and before the symbol's open one. */
  predicate Kept(intervals: seq<Interval>, openStart: map<string, int>, d: int) {
    && Disjoint(intervals)
    && (forall i :: 0 <= i < |intervals| ==> intervals[i].end < d)
    && forall i :: 0 <= i < |intervals| && intervals[i].symbol in openStart ==>
         intervals[i].end < openStart[intervals[i].symbol]
  }

  function Without(openStart: map<string, int>, sym: string): map<string, int> {
    map s | s in openStart && s != sym :: openStart[s]
  }

  /** Closing one interval on the last day its symbol was seen changes no past membership. */
  lemma CloseOne(intervals: seq<Interval>, openStart: map<string, int>, sym: string, before: int, d: int)
    requires Kept(intervals, openStart, d) && sym in openStart && openStart[sym] <= before < d
    ensures var closed := intervals + [Interval(sym, openStart[sym], before)]; var starts := Without(openStart, sym);
      && Kept(closed, starts, d)
      && (forall s, e :: e <= before ==> (Member(closed, starts, s, e) <==> Member(intervals, openStart, s, e)))
      && !Member(closed, starts, sym, d)
  {
    CoveredAppend(intervals, Interval(sym, openStart[sym], before));
  }

  /** for sym in prev - cur. */
  method Expel(d: int, ghost before: int, leaving: set<string>, openStart: map<string, int>, lastSeen: map<string, int>,
               intervals: seq<Interval>, changes: seq<Change>, ghost first: set<string>)
    returns (starts: map<string, int>, closed: seq<Interval>, events: seq<Change>)
    requires before < d && leaving <= openStart.Keys && leaving <= lastSeen.Keys
    requires forall s :: s in leaving ==> lastSeen[s] == before && openStart[s] <= before
    requires Kept(intervals, openStart, d)
    requires Effective(first, changes) && leaving <= Replay(first, changes, |changes|)
    ensures starts.Keys == openStart.Keys - leaving && forall s :: s in starts ==> starts[s] == openStart[s]
    ensures Kept(closed, starts, d)
    ensures forall s, e :: e <= before ==> (Member(closed, starts, s, e) <==> Member(intervals, openStart, s, e))
    ensures changes <= events && forall i :: |changes| <= i < |events| ==> events[i].date == d
    ensures Effective(first, events)
    ensures Replay(first, events, |events|) == Replay(first, changes, |changes|) - leaving
    ensures leaving == {} ==> events == changes
  {
    hide Kept, Member, Effective;
    starts, closed, events := openStart, intervals, changes;
    var todo := leaving;
    while todo != {}
      invariant todo <= leaving
      invariant starts.Keys == openStart.Keys - (leaving - todo)
      invariant forall s :: s in starts ==> starts[s] == openStart[s]
      invariant Kept(closed, starts, d)
      invariant forall s, e :: e <= before ==> (Member(closed, starts, s, e) <==> Member(intervals, openStart, s, e))
      invariant changes <= events && forall i :: |changes| <= i < |events| ==> events[i].date == d
      invariant Effective(first, events)
      invariant Replay(first, events, |events|) == Replay(first, changes, |changes|) - (leaving - todo)
      invariant leaving == {} ==> events == changes
    {
      var sym :| sym in todo;
      todo := todo - {sym};
      AppendEvent(first, events, Change(d, sym, false));
      events := events + [Change(d, sym, false)];
      CloseOne(closed, starts, sym, before, d);
      closed := closed + [Interval(sym, starts[sym], lastSeen[sym])];
      starts := Without(starts, sym);
    }
  }

  /** Nobody is a member on a later day unless still open: closed intervals are over. */
  lemma OnlyOpenLater(intervals: seq<Interval>, openStart: map<string, int>, s: string, d: int)
    requires Kept(intervals, openStart, d)
    ensures Member(intervals, openStart, s, d) <==> s in openStart && openStart[s] <= d
  {
  }

  /** Opening an interval today changes no earlier membership. */
  lemma OpenToday(intervals: seq<Interval>, openStart: map<string, int>, starts: map<string, int>,
                  entering: set<string>, d: int)
    requires Kept(intervals, openStart, d) && entering !! openStart.Keys
    requires starts.Keys == openStart.Keys + entering
    requires forall s :: s in starts ==> starts[s] == if s in entering then d else openStart[s]
    ensures Kept(intervals, starts, d)
    ensures forall s, e :: e < d ==> (Member(intervals, starts, s, e) <==> Member(intervals, openStart, s, e))
  {
  }

  lemma NextDay(intervals: seq<Interval>, openStart: map<string, int>, d: int, later: int)
    requires Kept(intervals, openStart, d) && d <= later
    ensures Kept(intervals, openStart, later)
  {
  }

  /** What the loop over the snapshots maintains after the first k of them. */
  ghost predicate Tracks(snaps: seq<Snapshot>, k: nat, prev: set<string>, openStart: map<string, int>,
                         lastSeen: map<string, int>, intervals: seq<Interval>)
    requires k <= |snaps|
  {
    && prev == (if k == 0 then {} else snaps[k - 1].members)
    && openStart.Keys == prev && prev <= lastSeen.Keys
    && (forall s :: s in prev ==> k > 0 && lastSeen[s] == snaps[k - 1].date && openStart[s] <= snaps[k - 1].date)
    && (forall i, s :: 0 <= i < k ==> (s in snaps[i].members <==> Member(intervals, openStart, s, snaps[i].date)))
    && (if k == 0 then intervals == [] else Kept(intervals, openStart, snaps[k - 1].date))
  }

  /** The first mark events are those dated no later than snapshot k, and replaying them from the first snapshot
      gives snapshot k. */
  ghost predicate Reaches(snaps: seq<Snapshot>, changes: seq<Change>, k: nat, mark: nat)
    requires k < |snaps|
  {
    && mark <= |changes| && Replay(snaps[0].members, changes, mark) == snaps[k].members
    && (forall i :: 0 <= i < mark ==> changes[i].date <= snaps[k].date)
    && (forall i :: mark <= i < |changes| ==> snaps[k].date < changes[i].date)
  }

  /** Each of the first k snapshots is reached at its mark; the first one is the baseline and raises no event. */
  ghost predicate Retraces(snaps: seq<Snapshot>, k: nat, changes: seq<Change>, marks: seq<nat>)
    requires k <= |snaps|
  {
    && |marks| == k && (k == 0 ==> changes == []) && (k > 0 ==> marks[0] == 0 && marks[k - 1] == |changes|)
    && (forall j :: 0 <= j < k ==> Reaches(snaps, changes, j, marks[j]))
    && (k > 0 ==> Effective(snaps[0].members, changes))
  }

  /** Events of a later day leave an earlier mark where it is. */
  lemma ReachesStill(snaps: seq<Snapshot>, k: nat, j: nat, changes: seq<Change>, mark: nat, events: seq<Change>,
                     far: int)
    requires Collected(snaps, far) && j < k < |snaps| && Reaches(snaps, changes, j, mark) && changes <= events
    requires forall i :: |changes| <= i < |events| ==> events[i].date == snaps[k].date
    ensures Reaches(snaps, events, j, mark)
  {
    var more := events[|changes|..];
    assert events == changes + more;
    ReplayPrefix(snaps[0].members, changes, more, mark);
    forall i | mark <= i < |events|
      ensures snaps[j].date < events[i].date
    {
      if i < |changes| {
        assert events[i] == changes[i];
      }
    }
  }

  lemma ReachesNext(snaps: seq<Snapshot>, k: nat, changes: seq<Change>, events: seq<Change>, far: int)
    requires Collected(snaps, far) && 0 < k < |snaps| && Reaches(snaps, changes, k - 1, |changes|) && changes <= events
    requires forall i :: |changes| <= i < |events| ==> events[i].date == snaps[k].date
    requires Replay(snaps[0].members, events, |events|) == snaps[k].members
    ensures Reaches(snaps, events, k, |events|)
  {
    forall i | 0 <= i < |changes|
      ensures events[i].date <= snaps[k].date
    {
      assert events[i] == changes[i];
    }
  }

  lemma RetraceMore(snaps: seq<Snapshot>, k: nat, changes: seq<Change>, marks: seq<nat>, events: seq<Change>, far: int)
    requires Collected(snaps, far) && k < |snaps| && Retraces(snaps, k, changes, marks)
    requires changes <= events && (k == 0 ==> events == [])
    requires forall i :: |changes| <= i < |events| ==> events[i].date == snaps[k].date
    requires Effective(snaps[0].members, events)
    requires Replay(snaps[0].members, events, |events|) == snaps[k].members
    ensures Retraces(snaps, k + 1, events, marks + [|events|])
  {
    hide Effective, Reaches, Collected, Replay;
    forall j | 0 <= j < k
      ensures Reaches(snaps, events, j, marks[j])
    {
      ReachesStill(snaps, k, j, changes, marks[j], events, far);
    }
    if k > 0 {
      ReachesNext(snaps, k, changes, events, far);
    } else {
      NoEvents(snaps);
    }
  }

  lemma NoEvents(snaps: seq<Snapshot>)
    requires snaps != []
    ensures Reaches(snaps, [], 0, 0)
  {
  }

  /** for sym in cur: last_seen[sym] = d. */
  method See(d: int, cur: set<string>, lastSeen: map<string, int>) returns (seen: map<string, int>)
    ensures seen.Keys == lastSeen.Keys + cur
    ensures forall s :: s in cur ==> seen[s] == d
  {
    seen := lastSeen;
    var todo := cur;
    while todo != {}
      invariant todo <= cur && seen.Keys == lastSeen.Keys + (cur - todo)
      invariant forall s :: s in cur - todo ==> seen[s] == d
    {
      var sym :| sym in todo;
      todo := todo - {sym};
      seen := seen[sym := d];
    }
  }

  /** One turn of the loop over the snapshots. */
  method Turn(snaps: seq<Snapshot>, k: nat, far: int, prev: set<string>, openStart: map<string, int>,
              lastSeen: map<string, int>, intervals: seq<Interval>, changes: seq<Change>, ghost marks: seq<nat>)
    returns (starts: map<string, int>, closed: seq<Interval>, seen: map<string, int>, events: seq<Change>)
    requires Collected(snaps, far) && k < |snaps|
    requires Tracks(snaps, k, prev, openStart, lastSeen, intervals) && Retraces(snaps, k, changes, marks)
    ensures Tracks(snaps, k + 1, snaps[k].members, starts, seen, closed)
    ensures Retraces(snaps, k + 1, events, marks + [|events|])
  {
    hide Kept, Member, Effective, Covered, Disjoint, Tracks, Retraces, Collected;
    var Snapshot(d, cur) := snaps[k];
    ghost var first, before := snaps[0].members, DayBefore(snaps, k);
    StartOfTurn(snaps, k, far, prev, openStart, intervals, changes, lastSeen, marks);
    starts, events := Admit(d, cur - prev, prev == {}, openStart, changes, first);
    OpenToday(intervals, openStart, starts, cur - prev, d);
    ghost var admitted := starts;
    starts, closed, events := Expel(d, before, prev - cur, starts, lastSeen, intervals, events, first);
    seen := See(d, cur, lastSeen);
    EndOfTurn(snaps, k, far, prev, openStart, lastSeen, intervals, starts, closed, seen);
    RetraceMore(snaps, k, changes, marks, events, far);
  }

  /** The day of the previous snapshot, or any day before the first. */
  function DayBefore(snaps: seq<Snapshot>, k: nat): int
    requires k < |snaps|
  {
    if k == 0 then snaps[0].date - 1 else snaps[k - 1].date
  }

  lemma StartOfTurn(snaps: seq<Snapshot>, k: nat, far: int, prev: set<string>, openStart: map<string, int>,
                    intervals: seq<Interval>, changes: seq<Change>, lastSeen: map<string, int>, marks: seq<nat>)
    requires Collected(snaps, far) && k < |snaps|
    requires Tracks(snaps, k, prev, openStart, lastSeen, intervals) && Retraces(snaps, k, changes, marks)
    ensures Kept(intervals, openStart, snaps[k].date) && Effective(snaps[0].members, changes)
    ensures prev == {} <==> k == 0
    ensures openStart.Keys == prev <= lastSeen.Keys && DayBefore(snaps, k) < snaps[k].date
    ensures forall s :: s in prev ==> lastSeen[s] == DayBefore(snaps, k) && openStart[s] <= DayBefore(snaps, k)
    ensures if k == 0 then changes == [] else Replay(snaps[0].members, changes, |changes|) == prev
  {
    if k > 0 {
      NextDay(intervals, openStart, snaps[k - 1].date, snaps[k].date);
    }
  }

  lemma EndOfTurn(snaps: seq<Snapshot>, k: nat, far: int, prev: set<string>, openStart: map<string, int>,
                  lastSeen: map<string, int>, intervals: seq<Interval>, starts: map<string, int>,
                  closed: seq<Interval>, seen: map<string, int>)
    requires Collected(snaps, far) && k < |snaps| && Tracks(snaps, k, prev, openStart, lastSeen, intervals)
    requires starts.Keys == snaps[k].members <= seen.Keys && Kept(closed, starts, snaps[k].date)
    requires forall s :: s in starts ==> starts[s] <= snaps[k].date && seen[s] == snaps[k].date
    requires forall s, e ::
      e <= DayBefore(snaps, k) ==> (Member(closed, starts, s, e) <==> Member(intervals, openStart, s, e))
    ensures Tracks(snaps, k + 1, snaps[k].members, starts, seen, closed)
  {
    hide Kept, Member;
    forall s {
      OnlyOpenLater(closed, starts, s, snaps[k].date);
    }
    forall i, s | 0 <= i < k
      ensures s in snaps[i].members <==> Member(closed, starts, s, snaps[i].date)
    {
      assert snaps[i].date <= DayBefore(snaps, k);
    }
  }

  lemma StartTracking(snaps: seq<Snapshot>)
    ensures Tracks(snaps, 0, {}, map[], map[], []) && Retraces(snaps, 0, [], [])
  {
  }

  /** What the last loop maintains: open intervals come after the symbol's closed ones. */
  predicate Finishing(intervals: seq<Interval>, openStart: map<string, int>) {
    Disjoint(intervals) && forall i :: 0 <= i < |intervals| && intervals[i].symbol in openStart ==>
      intervals[i].end < openStart[intervals[i].symbol]
  }

  lemma FinishOne(intervals: seq<Interval>, openStart: map<string, int>, sym: string, far: int)
    requires Finishing(intervals, openStart) && sym in openStart && openStart[sym] <= far
    ensures var closed := intervals + [Interval(sym, openStart[sym], far)]; var starts := Without(openStart, sym);
      && Finishing(closed, starts)
      && forall s, e :: e <= far ==> (Member(closed, starts, s, e) <==> Member(intervals, openStart, s, e))
  {
    CoveredAppend(intervals, Interval(sym, openStart[sym], far));
  }

  /** for sym, start in open_start.items(). */
  method CloseAll(far: int, openStart: map<string, int>, intervals: seq<Interval>) returns (closed: seq<Interval>)
    requires Finishing(intervals, openStart) && forall s :: s in openStart ==> openStart[s] <= far
    ensures Disjoint(closed)
    ensures forall s, e :: e <= far ==> (Covered(closed, s, e) <==> Member(intervals, openStart, s, e))
  {
    hide Finishing, Covered, Member;
    closed := intervals;
    var left := openStart;
    while left != map[]
      invariant Finishing(closed, left) && left.Keys <= openStart.Keys
      invariant forall s :: s in left ==> left[s] == openStart[s]
      invariant forall s, e :: e <= far ==> (Member(closed, left, s, e) <==> Member(intervals, openStart, s, e))
      decreases |left.Keys|
    {
      var sym :| sym in left;
      FinishOne(closed, left, sym, far);
      closed := closed + [Interval(sym, left[sym], far)];
      assert Without(left, sym).Keys == left.Keys - {sym};
      left := Without(left, sym);
    }
    NoneOpen(closed, left);
  }

  lemma NoneOpen(intervals: seq<Interval>, openStart: map<string, int>)
    requires Finishing(intervals, openStart) && openStart == map[]
    ensures Disjoint(intervals)
    ensures forall s, e :: Covered(intervals, s, e) <==> Member(intervals, openStart, s, e)
  {
  }

  lemma EndOfTurns(snaps: seq<Snapshot>, far: int, prev: set<string>, openStart: map<string, int>,
                   lastSeen: map<string, int>, intervals: seq<Interval>)
    requires Collected(snaps, far) && Tracks(snaps, |snaps|, prev, openStart, lastSeen, intervals)
    ensures Finishing(intervals, openStart) && forall s :: s in openStart ==> openStart[s] <= far
    ensures forall k, s :: 0 <= k < |snaps| ==>
      snaps[k].date <= far && (s in snaps[k].members <==> Member(intervals, openStart, s, snaps[k].date))
  {
  }

  /** _diff. */
  method Diff(snaps: seq<Snapshot>, far: int)
    returns (intervals: seq<Interval>, changes: seq<Change>, ghost marks: seq<nat>)
    requires Collected(snaps, far)
    ensures forall k, s :: 0 <= k < |snaps| ==> (s in snaps[k].members <==> Covered(intervals, s, snaps[k].date))
    ensures Disjoint(intervals)
    ensures Retraces(snaps, |snaps|, changes, marks)
  {
    hide Kept, Member, Effective, Retraces, Covered, Disjoint, Tracks, Finishing;
    intervals, changes, marks := [], [], [];
    var prev: set<string>, openStart: map<string, int>, lastSeen: map<string, int> := {}, map[], map[];
    StartTracking(snaps);
    for k := 0 to |snaps|
      invariant Tracks(snaps, k, prev, openStart, lastSeen, intervals) && Retraces(snaps, k, changes, marks)
    {
      var starts, closed, seen, events := Turn(snaps, k, far, prev, openStart, lastSeen, intervals, changes, marks);
      openStart, intervals, lastSeen, changes := starts, closed, seen, events;
      marks := marks + [|events|];
      prev := snaps[k].members;
    }
    EndOfTurns(snaps, far, prev, openStart, lastSeen, intervals);
    intervals := CloseAll(far, openStart, intervals);
  }
}
