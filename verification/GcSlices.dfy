/** Garbage-collection time in an export trace (exportTrace in packages/core/browser-tests/export-diagnostics.ts), in
    whole microseconds: begin and end events paired by a stack, and complete events with a duration. */
module GcSlices {
  datatype Phase = Begin | End | Complete(duration: nat)

  datatype Event = Event(phase: Phase, ts: int)

  /** The trace as it reaches the loop: within the window and in order of time. */
  predicate InWindow(gc: seq<Event>, start: int, end: int) {
    (forall i :: 0 <= i < |gc| ==> start <= gc[i].ts < end)
    && forall i, j :: 0 <= i < j < |gc| ==> gc[i].ts <= gc[j].ts
  }

  // ── What is open when ────────────────────────────────────────────────────────────────────────

  function Nested(level: nat, e: Event): nat {
    match e.phase
    case Begin => level + 1
    case End => if level == 0 then 0 else level - 1  // it began before the window
    case Complete(_) => level
  }

  /** How many slices that began in the window are open at the instant `t`. */
  function LevelAt(gc: seq<Event>, t: int): nat {
    if gc == [] then 0
    else
      var level := LevelAt(gc[..|gc| - 1], t);
      if gc[|gc| - 1].ts <= t then Nested(level, gc[|gc| - 1]) else level
  }

  function Level(gc: seq<Event>): nat { if gc == [] then 0 else Nested(Level(gc[..|gc| - 1]), gc[|gc| - 1]) }

  /** The microseconds from `lo` to `hi` during which at least one slice that began in the window is open. */
  function OpenTime(gc: seq<Event>, lo: int, hi: int): (n: nat)
    requires lo <= hi
    ensures n <= hi - lo
    decreases hi - lo
  {
    if lo == hi then 0 else OpenTime(gc, lo, hi - 1) + if LevelAt(gc, hi - 1) > 0 then 1 else 0
  }

  /** How many slices that began before the window are still open at `t`: the ends after it that close nothing. */
  function Pending(gc: seq<Event>, t: int): nat {
    if gc == [] then 0
    else
      var before, e := gc[..|gc| - 1], gc[|gc| - 1];
      Pending(before, t) + if e.phase.End? && Level(before) == 0 && t < e.ts then 1 else 0
  }

  /** The microseconds from `lo` to `hi` during which only slices that began before the window are open. */
  function Missed(gc: seq<Event>, lo: int, hi: int): nat
    requires lo <= hi
    decreases hi - lo
  {
    if lo == hi then 0
    else Missed(gc, lo, hi - 1) + if Pending(gc, hi - 1) > 0 && LevelAt(gc, hi - 1) == 0 then 1 else 0
  }

  /** While a slice that began before the window is open, so is one that begins in it. */
  predicate AllSeen(gc: seq<Event>, start: int, end: int) {
    forall t :: start <= t < end && Pending(gc, t) > 0 ==> LevelAt(gc, t) > 0
  }

  /** The slices with no other around them that also ended. */
  function Outermost(gc: seq<Event>): nat {
    if gc == [] then 0
    else
      var before := gc[..|gc| - 1];
      Outermost(before) + if gc[|gc| - 1].phase.End? && Level(before) == 1 then 1 else 0
  }

  /** When the slice began that is still open at the end, with no other around it. */
  function Unended(gc: seq<Event>): int
    requires Level(gc) > 0
  {
    var before := gc[..|gc| - 1];
    if Level(before) == 0 then gc[|gc| - 1].ts else Unended(before)
  }

  function Unclosed(gc: seq<Event>, end: int): int { if Level(gc) == 0 then 0 else end - Unended(gc) }

  function Clipped(gc: seq<Event>, end: int): int {
    if gc == [] then 0
    else
      var e := gc[|gc| - 1];
      Clipped(gc[..|gc| - 1], end) + if e.phase.Complete? then Min(e.phase.duration, end - e.ts) else 0
  }

  function Completes(gc: seq<Event>): nat {
    if gc == [] then 0 else Completes(gc[..|gc| - 1]) + if gc[|gc| - 1].phase.Complete? then 1 else 0
  }

  function Min(a: int, b: int): int { if a < b then a else b }

  // ── The stack loop ───────────────────────────────────────────────────────────────────────────

  /** The paired slices count for the time at which one is open, each of them once; a slice that does not end in
      the window does not count; complete events count on top. */
  method GcTime(gc: seq<Event>, start: int, end: int) returns (gcUs: int, gcCount: nat)
    requires start <= end && InWindow(gc, start, end)
    ensures gcUs == OpenTime(gc, start, end) - Unclosed(gc, end) + Clipped(gc, end)
    ensures gcCount == Outermost(gc) + Completes(gc)
  {
    hide Level, Outermost, Completes, Clipped, Unended, OpenTime;
    Empty(start, end);
    var stack: seq<Event> := [];
    gcUs, gcCount := 0, 0;
    var i := 0;
    forall hi: int ensures Accounted(0, [], [], start, end, hi) { NothingOpen(start, hi); }
    assert gc[..0] == [];
    while i < |gc|
      invariant i <= |gc| && |stack| == Level(gc[..i])
      invariant stack != [] ==> stack[0].ts == Unended(gc[..i])
      invariant stack != [] ==> start <= stack[0].ts && i > 0 && stack[0].ts <= gc[i - 1].ts
      invariant gcCount == Outermost(gc[..i]) + Completes(gc[..i])
      invariant forall hi: int :: Accounted(gcUs, stack, gc[..i], start, end, hi)
    {
      var e := gc[i];
      ghost var read := gc[..i + 1];
      assert read == gc[..i] + [e];
      ReadOne(gc[..i], e, end);
      assert Accounted(gcUs, stack, gc[..i], start, end, e.ts);
      match e.phase {
        case Begin => stack := stack + [e];
        case End =>
          if stack != [] {
            var first := stack[|stack| - 1];
            stack := stack[..|stack| - 1];
            if |stack| == 0 {
              gcUs := gcUs + Min(end, e.ts) - first.ts;
              gcCount := gcCount + 1;
            }
          }
        case Complete(duration) =>
          gcUs := gcUs + Min(duration, end - e.ts);
          gcCount := gcCount + 1;
      }
      forall hi: int ensures Accounted(gcUs, stack, read, start, end, hi) {
        if e.ts <= hi {
          OpenTimeStep(gc[..i], e, start, hi);
        }
      }
      i := i + 1;
    }
    assert gc[..|gc|] == gc;
    assert Accounted(gcUs, stack, gc, start, end, end);
  }

  lemma Empty(start: int, end: int)
    ensures Level([]) == 0 && Outermost([]) == 0 && Completes([]) == 0 && Clipped([], end) == 0
  {
  }

  /** One more event, in each of the accounts. */
  lemma ReadOne(done: seq<Event>, e: Event, end: int)
    ensures var read := done + [e];
            Level(read) == Nested(Level(done), e)
            && Outermost(read) == Outermost(done) + (if e.phase.End? && Level(done) == 1 then 1 else 0)
            && Completes(read) == Completes(done) + (if e.phase.Complete? then 1 else 0)
            && Clipped(read, end) == Clipped(done, end)
               + (if e.phase.Complete? then Min(e.phase.duration, end - e.ts) else 0)
            && (Level(read) > 0 ==> Unended(read) == if Level(done) == 0 then e.ts else Unended(done))
  {
    assert (done + [e])[..|done|] == done;
  }

  /** What is counted so far, and what the open slice adds, is the open time up to `hi`. */
  ghost predicate Accounted(gcUs: int, stack: seq<Event>, done: seq<Event>, start: int, end: int, hi: int) {
    start <= hi && (done != [] ==> done[|done| - 1].ts <= hi)
    ==> gcUs + Running(stack, hi) == OpenTime(done, start, hi) + Clipped(done, end)
  }

  /** How long the outermost slice on the stack has run by `hi`. */
  function Running(stack: seq<Event>, hi: int): int { if stack == [] then 0 else hi - stack[0].ts }

  lemma {:induction false} NothingOpen(lo: int, hi: int)
    ensures lo <= hi ==> OpenTime([], lo, hi) == 0
    decreases hi - lo
  {
    if lo < hi { NothingOpen(lo, hi - 1); }
  }

  /** Before its own instant an event changes nothing; from then on, with no later one, the level stays. */
  lemma {:induction false} OpenTimeStep(gc: seq<Event>, e: Event, lo: int, hi: int)
    requires lo <= e.ts <= hi && forall i :: 0 <= i < |gc| ==> gc[i].ts <= e.ts
    ensures OpenTime(gc + [e], lo, hi) == OpenTime(gc, lo, e.ts) + if Level(gc + [e]) > 0 then hi - e.ts else 0
    decreases hi - lo
  {
    assert (gc + [e])[..|gc|] == gc;
    if e.ts < hi {
      OpenTimeStep(gc, e, lo, hi - 1);
      LevelSettled(gc + [e], hi - 1);
    } else {
      OpenTimeSame(gc, e, lo, hi);
    }
  }

  lemma {:induction false} OpenTimeSame(gc: seq<Event>, e: Event, lo: int, hi: int)
    requires lo <= hi <= e.ts
    ensures OpenTime(gc + [e], lo, hi) == OpenTime(gc, lo, hi)
    decreases hi - lo
  {
    assert (gc + [e])[..|gc|] == gc;
    if lo < hi { OpenTimeSame(gc, e, lo, hi - 1); }
  }

  lemma {:induction false} LevelSettled(gc: seq<Event>, t: int)
    requires forall i :: 0 <= i < |gc| ==> gc[i].ts <= t
    ensures LevelAt(gc, t) == Level(gc)
  {
    if gc != [] { LevelSettled(gc[..|gc| - 1], t); }
  }

  // ── What the numbers mean ────────────────────────────────────────────────────────────────────

  /** A trace of paired events only: the loop's total, by its contract, is the time at which a slice is open, exactly
      when every slice that begins in the window ends in it, and one that began before it is open only while one that
      begins in it is. */
  lemma PairedTotal(gc: seq<Event>, start: int, end: int)
    requires start <= end && InWindow(gc, start, end) && Completes(gc) == 0
    ensures var total := OpenTime(gc, start, end) - Unclosed(gc, end) + Clipped(gc, end);
            (total == CoveredTime(gc, end, start, end) <==> Level(gc) == 0 && AllSeen(gc, start, end))
            && total <= end - start
  {
    CoveredTotal(gc, start, end);
    NoneClipped(gc, end);
    forall t | start <= t < end ensures Layers(gc, end, t) <= 1 { NoneCovers(gc, end, t); }
    if Level(gc) > 0 { UnendedBefore(gc, start, end); }
  }

  lemma {:induction false} NoneCovers(gc: seq<Event>, end: int, t: int)
    requires Completes(gc) == 0
    ensures CompletesAt(gc, end, t) == 0
  {
    if gc != [] { NoneCovers(gc[..|gc| - 1], end, t); }
  }

  lemma {:induction false} NoneClipped(gc: seq<Event>, end: int)
    requires Completes(gc) == 0
    ensures Clipped(gc, end) == 0
  {
    if gc != [] { NoneClipped(gc[..|gc| - 1], end); }
  }

  lemma {:induction false} UnendedBefore(gc: seq<Event>, start: int, end: int)
    requires InWindow(gc, start, end) && Level(gc) > 0
    ensures start <= Unended(gc) < end
  {
    var before := gc[..|gc| - 1];
    if Level(before) > 0 { UnendedBefore(before, start, end); }
  }

  /** Slices that begin with no other around them: those counted, and one more while one is open. */
  function OutermostBegins(gc: seq<Event>): nat {
    if gc == [] then 0
    else
      var before := gc[..|gc| - 1];
      OutermostBegins(before) + if gc[|gc| - 1].phase.Begin? && Level(before) == 0 then 1 else 0
  }

  lemma {:induction false} OutermostCounted(gc: seq<Event>)
    ensures OutermostBegins(gc) == Outermost(gc) + if Level(gc) > 0 then 1 else 0
  {
    if gc != [] { OutermostCounted(gc[..|gc| - 1]); }
  }

  // ── Complete events beside pairs ─────────────────────────────────────────────────────────────

  /** How many complete events, cut at the end of the window, cover the instant `t`. */
  function CompletesAt(gc: seq<Event>, end: int, t: int): nat {
    if gc == [] then 0
    else
      var e := gc[|gc| - 1];
      CompletesAt(gc[..|gc| - 1], end, t)
      + if e.phase.Complete? && e.ts <= t < e.ts + Min(e.phase.duration, end - e.ts) then 1 else 0
  }

  /** What covers the instant `t`: open pairs, counted once whether they began in the window or before it, and each
      complete event. */
  function Layers(gc: seq<Event>, end: int, t: int): nat {
    (if LevelAt(gc, t) + Pending(gc, t) > 0 then 1 else 0) + CompletesAt(gc, end, t)
  }

  /** The microseconds from `lo` to `hi` during which a slice of either form is open. */
  function CoveredTime(gc: seq<Event>, end: int, lo: int, hi: int): nat
    requires lo <= hi
    decreases hi - lo
  {
    if lo == hi then 0 else CoveredTime(gc, end, lo, hi - 1) + if Layers(gc, end, hi - 1) > 0 then 1 else 0
  }

  /** The microseconds counted again: all layers of an instant but one. */
  function CountedAgain(gc: seq<Event>, end: int, lo: int, hi: int): nat
    requires lo <= hi
    decreases hi - lo
  {
    if lo == hi then 0
    else
      var layers := Layers(gc, end, hi - 1);
      CountedAgain(gc, end, lo, hi - 1) + if layers > 1 then layers - 1 else 0
  }

  /** The microseconds of complete events, instant by instant. */
  function CompleteTime(gc: seq<Event>, end: int, lo: int, hi: int): nat
    requires lo <= hi
    decreases hi - lo
  {
    if lo == hi then 0 else CompleteTime(gc, end, lo, hi - 1) + CompletesAt(gc, end, hi - 1)
  }

  predicate OneLayer(gc: seq<Event>, start: int, end: int) {
    forall t :: start <= t < end ==> Layers(gc, end, t) <= 1
  }

  /** For every trace the loop sees: its total is the time a slice of either form is open, plus what several
      layers count again, less the slice that does not end in the window and the time only slices from before it are
      open. It is right exactly when these agree; and where every slice ends and none is missed, exactly when no
      instant has more than one layer. */
  lemma CoveredTotal(gc: seq<Event>, start: int, end: int)
    requires start <= end && InWindow(gc, start, end)
    ensures var covered, again := CoveredTime(gc, end, start, end), CountedAgain(gc, end, start, end);
            var total := OpenTime(gc, start, end) - Unclosed(gc, end) + Clipped(gc, end);
            var missed := Missed(gc, start, end);
            total == covered + again - Unclosed(gc, end) - missed
            && (total == covered <==> again == Unclosed(gc, end) + missed)
            && (again == 0 <==> OneLayer(gc, start, end))
            && (Unclosed(gc, end) == 0 <==> Level(gc) == 0)
            && (missed == 0 <==> AllSeen(gc, start, end))
            && (Level(gc) == 0 && AllSeen(gc, start, end) ==> (total == covered <==> OneLayer(gc, start, end)))
  {
    ClippedIsCompleteTime(gc, start, end);
    LayersAddUp(gc, end, start, end);
    NoneAgain(gc, end, start, end);
    NoneMissed(gc, start, end);
    if Level(gc) > 0 { UnendedBefore(gc, start, end); }
  }

  lemma {:induction false} LayersAddUp(gc: seq<Event>, end: int, lo: int, hi: int)
    requires lo <= hi
    ensures OpenTime(gc, lo, hi) + Missed(gc, lo, hi) + CompleteTime(gc, end, lo, hi)
         == CoveredTime(gc, end, lo, hi) + CountedAgain(gc, end, lo, hi)
    decreases hi - lo
  {
    if lo < hi { LayersAddUp(gc, end, lo, hi - 1); }
  }

  lemma {:induction false} NoneMissed(gc: seq<Event>, lo: int, hi: int)
    requires lo <= hi
    ensures Missed(gc, lo, hi) == 0 <==> AllSeen(gc, lo, hi)
    decreases hi - lo
  {
    if lo < hi { NoneMissed(gc, lo, hi - 1); }
  }

  lemma {:induction false} NoneAgain(gc: seq<Event>, end: int, lo: int, hi: int)
    requires lo <= hi
    ensures CountedAgain(gc, end, lo, hi) == 0 <==> forall t :: lo <= t < hi ==> Layers(gc, end, t) <= 1
    decreases hi - lo
  {
    if lo < hi { NoneAgain(gc, end, lo, hi - 1); }
  }

  /** The clipped durations are the complete time of the window. */
  lemma {:induction false} ClippedIsCompleteTime(gc: seq<Event>, start: int, end: int)
    requires start <= end && InWindow(gc, start, end)
    ensures Clipped(gc, end) == CompleteTime(gc, end, start, end)
  {
    if gc == [] {
      NoCompletes(end, start, end);
    } else {
      var before, e := gc[..|gc| - 1], gc[|gc| - 1];
      ClippedIsCompleteTime(before, start, end);
      OneMoreComplete(before, e, end, start, end);
      assert before + [e] == gc;
    }
  }

  lemma {:induction false} NoCompletes(end: int, lo: int, hi: int)
    requires lo <= hi
    ensures CompleteTime([], end, lo, hi) == 0
    decreases hi - lo
  {
    if lo < hi { NoCompletes(end, lo, hi - 1); }
  }

  /** One more complete event adds the part of it before `hi`. */
  lemma {:induction false} OneMoreComplete(gc: seq<Event>, e: Event, end: int, lo: int, hi: int)
    requires lo <= hi <= end && lo <= e.ts < end
    ensures CompleteTime(gc + [e], end, lo, hi) == CompleteTime(gc, end, lo, hi)
              + if e.phase.Complete? && e.ts < hi then Min(Min(e.phase.duration, end - e.ts), hi - e.ts) else 0
    decreases hi - lo
  {
    assert (gc + [e])[..|gc|] == gc;
    if lo < hi { OneMoreComplete(gc, e, end, lo, hi - 1); }
  }

  // ── Events the loop never sees ───────────────────────────────────────────────────────────────

  /** The filter before the loop: the events of the window. */
  function Selected(raw: seq<Event>, start: int, end: int): seq<Event> {
    if raw == [] then []
    else
      var e := raw[|raw| - 1];
      Selected(raw[..|raw| - 1], start, end) + if start <= e.ts < end then [e] else []
  }

  /** How many complete events that began before the window are still open at `t`. */
  function EarlyAt(raw: seq<Event>, start: int, t: int): nat {
    if raw == [] then 0
    else
      var e := raw[|raw| - 1];
      EarlyAt(raw[..|raw| - 1], start, t)
      + if e.phase.Complete? && e.ts < start && t < e.ts + e.phase.duration then 1 else 0
  }

  /** A pair opened before the window that no end in it closes: more are open at its start than it closes. */
  predicate Spans(raw: seq<Event>, start: int, end: int) {
    LevelAt(raw, start - 1) > Pending(Selected(raw, start, end), start - 1)
  }

  /** Slices open at `t` of which the window has no event. */
  function Unseen(raw: seq<Event>, start: int, end: int, t: int): nat {
    EarlyAt(raw, start, t) + if Spans(raw, start, end) then 1 else 0
  }

  /** The microseconds from `lo` to `hi` during which a slice is open, those the filter drops included. */
  function TrueTime(raw: seq<Event>, start: int, end: int, lo: int, hi: int): nat
    requires lo <= hi
    decreases hi - lo
  {
    if lo == hi then 0
    else
      TrueTime(raw, start, end, lo, hi - 1)
      + if Layers(Selected(raw, start, end), end, hi - 1) + Unseen(raw, start, end, hi - 1) > 0 then 1 else 0
  }

  /** The microseconds during which only slices are open of which the window has no event. */
  function Dropped(raw: seq<Event>, start: int, end: int, lo: int, hi: int): nat
    requires lo <= hi
    decreases hi - lo
  {
    if lo == hi then 0
    else
      Dropped(raw, start, end, lo, hi - 1)
      + if Unseen(raw, start, end, hi - 1) > 0 && Layers(Selected(raw, start, end), end, hi - 1) == 0 then 1 else 0
  }

  lemma {:induction false} SelectedInWindow(raw: seq<Event>, start: int, end: int)
    requires forall i, j :: 0 <= i < j < |raw| ==> raw[i].ts <= raw[j].ts
    ensures InWindow(Selected(raw, start, end), start, end)
    ensures forall e :: e in Selected(raw, start, end) ==> e in raw
  {
    if raw != [] {
      var before := raw[..|raw| - 1];
      SelectedInWindow(before, start, end);
      var kept := Selected(before, start, end);
      forall i | 0 <= i < |kept| ensures kept[i].ts <= raw[|raw| - 1].ts { assert kept[i] in before; }
    }
  }

  lemma {:induction false} CoveredOrDropped(raw: seq<Event>, start: int, end: int, lo: int, hi: int)
    requires lo <= hi
    ensures TrueTime(raw, start, end, lo, hi)
         == CoveredTime(Selected(raw, start, end), end, lo, hi) + Dropped(raw, start, end, lo, hi)
    decreases hi - lo
  {
    if lo < hi { CoveredOrDropped(raw, start, end, lo, hi - 1); }
  }

  /** For the trace as recorded, in order of time: the total of its window is the time a slice is open, plus what is
      counted again, less the slice that does not end, the time only pairs are open that began before the window and
      end in it, and the time only slices are open of which the window has no event. It is right exactly when these
      agree. */
  lemma TraceTotal(raw: seq<Event>, start: int, end: int)
    requires start <= end && forall i, j :: 0 <= i < j < |raw| ==> raw[i].ts <= raw[j].ts
    ensures var gc := Selected(raw, start, end);
            var total := OpenTime(gc, start, end) - Unclosed(gc, end) + Clipped(gc, end);
            var lost := Unclosed(gc, end) + Missed(gc, start, end) + Dropped(raw, start, end, start, end);
            InWindow(gc, start, end)
            && total == TrueTime(raw, start, end, start, end) + CountedAgain(gc, end, start, end) - lost
            && (total == TrueTime(raw, start, end, start, end) <==> CountedAgain(gc, end, start, end) == lost)
  {
    SelectedInWindow(raw, start, end);
    CoveredTotal(Selected(raw, start, end), start, end);
    CoveredOrDropped(raw, start, end, start, end);
  }

  /** A complete event inside a pair counts twice: 14 microseconds where a slice is open for 9. */
  lemma CompleteCountsTwice(gc: seq<Event>)
    requires gc == [Event(Begin, 0), Event(Complete(5), 2), Event(End, 9)]
    ensures InWindow(gc, 0, 10) && OpenTime(gc, 0, 10) - Unclosed(gc, 10) + Clipped(gc, 10) == 14
    ensures OpenTime(gc, 0, 10) == 9
  {
    hide Level, Outermost, Completes, Clipped, Unended, OpenTime;
    Empty(0, 10);
    var b, x, e := gc[0], gc[1], gc[2];
    assert [] + [b] == [b] && [b] + [x] == [b, x] && [b, x] + [e] == gc;
    ReadOne([], b, 10);
    ReadOne([b], x, 10);
    ReadOne([b, x], e, 10);
    NothingOpen(0, 0);
    OpenTimeStep([], b, 0, 2);
    OpenTimeStep([b], x, 0, 9);
    OpenTimeStep([b, x], e, 0, 10);
  }

  /** An end alone: a slice is open for five microseconds, and none of them counts. */
  lemma EndAloneIsMissed(gc: seq<Event>)
    requires gc == [Event(End, 5)]
    ensures InWindow(gc, 0, 10) && OpenTime(gc, 0, 10) - Unclosed(gc, 10) + Clipped(gc, 10) == 0
    ensures CoveredTime(gc, 10, 0, 10) == 5 && Level(gc) == 0 && OneLayer(gc, 0, 10)
  {
    assert gc[..0] == [];
    LaterNothing(gc, 10);
    forall t | 0 <= t < 10 ensures Layers(gc, 10, t) <= 1 { NoneCovers(gc, 10, t); }
  }

  lemma {:induction false} MissedUntil(gc: seq<Event>, hi: nat)
    requires gc == [Event(End, 5)] && hi <= 5
    ensures CoveredTime(gc, 10, 0, hi) == hi && OpenTime(gc, 0, hi) == 0
  {
    assert gc[..0] == [];
    if hi > 0 {
      assert LevelAt(gc, hi - 1) == 0 && Pending(gc, hi - 1) == 1;
      MissedUntil(gc, hi - 1);
    }
  }

  lemma {:induction false} LaterNothing(gc: seq<Event>, hi: nat)
    requires gc == [Event(End, 5)] && 5 <= hi <= 10
    ensures CoveredTime(gc, 10, 0, hi) == 5 && OpenTime(gc, 0, hi) == 0
  {
    assert gc[..0] == [];
    if hi > 5 {
      assert LevelAt(gc, hi - 1) == 0 == Pending(gc, hi - 1);
      NoneCovers(gc, 10, hi - 1);
      LaterNothing(gc, hi - 1);
    } else {
      MissedUntil(gc, 5);
    }
  }

  /** A complete event from before the window: a slice is open for five microseconds of it, and none of them counts. */
  lemma EarlyCompleteIsDropped(raw: seq<Event>)
    requires raw == [Event(Complete(10), -5)]
    ensures Selected(raw, 0, 10) == [] && TrueTime(raw, 0, 10, 0, 10) == 5
    ensures OpenTime([], 0, 10) - Unclosed([], 10) + Clipped([], 10) == 0
  {
    assert raw[..0] == [];
    NothingOpen(0, 10);
    EarlyUntil(raw, 10);
  }

  lemma {:induction false} EarlyUntil(raw: seq<Event>, hi: nat)
    requires raw == [Event(Complete(10), -5)] && hi <= 10
    ensures TrueTime(raw, 0, 10, 0, hi) == if hi < 5 then hi else 5
  {
    assert raw[..0] == [];
    if hi > 0 {
      assert LevelAt(raw[..0], -1) == 0 && LevelAt(raw, -1) == 0;
      assert EarlyAt(raw, 0, hi - 1) == (if hi <= 5 then 1 else 0) && !Spans(raw, 0, 10);
      assert Layers(Selected(raw, 0, 10), 10, hi - 1) == 0;
      EarlyUntil(raw, hi - 1);
    }
  }
}
