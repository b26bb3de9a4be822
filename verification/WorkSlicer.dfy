/** Cooperative slicing on one shared clock (packages/core/src/work-slicer.ts). Times are reals in milliseconds; a
    generator is a state, what `next` does in each state, and what that call costs. */
module WorkSlicer {
  const WORK_SLICE_MS: real := 8.0

  // ── Generators ───────────────────────────────────────────────────────────────────────────────

  datatype Next<S, T> = Yielded(state: S) | Returned(value: T)

  datatype Steps<!S, !T> = Steps(start: S, next: S -> Next<S, T>, cost: S -> real)

  /** From state `s` the generator returns at its `n`-th call of `next`. */
  ghost predicate EndsIn<S, T>(g: Steps<S, T>, s: S, n: nat) {
    n > 0 && match g.next(s) case Returned(_) => n == 1 case Yielded(t) => EndsIn(g, t, n - 1)
  }

  /** What it returns then. */
  ghost function ResultOf<S, T>(g: Steps<S, T>, s: S, n: nat): T
    requires EndsIn(g, s, n)
  {
    match g.next(s) case Returned(value) => value case Yielded(t) => ResultOf(g, t, n - 1)
  }

  /** What its calls cost, one by one. */
  ghost function CostsOf<S, T>(g: Steps<S, T>, s: S, n: nat): (costs: seq<real>)
    requires EndsIn(g, s, n)
    ensures |costs| == n
  {
    [g.cost(s)] + match g.next(s) case Returned(_) => [] case Yielded(t) => CostsOf(g, t, n - 1)
  }

  /** Any list of costs is some generator's: the state counts the calls. */
  function Listed<T>(costs: seq<real>, value: T): Steps<int, T> {
    Steps(0, i => NextListed(costs, value, i), i => if 0 <= i < |costs| then costs[i] else 0.0)
  }

  function NextListed<T>(costs: seq<real>, value: T, i: int): Next<int, T> {
    if i + 1 < |costs| then Yielded(i + 1) else Returned(value)
  }

  lemma {:induction false} ListedCosts<T>(costs: seq<real>, value: T, i: nat)
    requires i < |costs|
    ensures EndsIn(Listed(costs, value), i, |costs| - i)
    ensures CostsOf(Listed(costs, value), i, |costs| - i) == costs[i..]
    ensures ResultOf(Listed(costs, value), i, |costs| - i) == value
    decreases |costs| - i
  {
    var g := Listed(costs, value);
    assert g.next(i) == NextListed(costs, value, i) && g.cost(i) == costs[i];
    if i + 1 < |costs| { ListedCosts(costs, value, i + 1); }
    assert costs[i..] == [costs[i]] + costs[i + 1..];
  }

  /** A generator being run. */
  class Generator<S, T> {
    const steps: Steps<S, T>
    var state: S

    constructor (steps: Steps<S, T>)
      ensures this.steps == steps && state == steps.start
    {
      this.steps := steps;
      state := steps.start;
    }
  }

  // ── The clock ────────────────────────────────────────────────────────────────────────────────

  /** The time, the shared slice start, when the event loop last had a turn, the longest it has waited for one. */
  datatype Clock = Clock(now: real, sliceStart: real, turnEnd: real, waited: real)

  function Later(a: real, b: real): real { if a < b then b else a }

  function Worked(c: Clock, cost: real): Clock {
    c.(now := c.now + cost, waited := Later(c.waited, c.now + cost - c.turnEnd))
  }

  /** The check: a turn of this length once the slice has run out, nothing before. */
  function Checked(c: Clock, turn: real): Clock {
    if c.now - c.sliceStart < WORK_SLICE_MS then c
    else c.(now := c.now + turn, sliceStart := c.now + turn, turnEnd := c.now + turn)
  }

  /** A run of steps with these costs, a check between any two. */
  function Sliced(c: Clock, costs: seq<real>, turns: nat -> real, i: nat): Clock
    decreases |costs|
  {
    if costs == [] then c
    else
      var d := Worked(c, costs[0]);
      if |costs| == 1 then d else Sliced(Checked(d, turns(i)), costs[1..], turns, i + 1)
  }

  /** Run after run on one thread. */
  function Chained(c: Clock, runs: seq<seq<real>>, turns: nat -> nat -> real, k: nat): Clock
    decreases |runs|
  {
    if runs == [] then c else Chained(Sliced(c, runs[0], turns(k), 0), runs[1..], turns, k + 1)
  }

  /** The thread: `turnEnd` and `waited` only record. */
  class Thread {
    var now: real
    var sliceStart: real
    ghost var turnEnd: real
    ghost var waited: real

    constructor (now: real, sliceStart: real, ghost turnEnd: real)
      ensures State() == Clock(now, sliceStart, turnEnd, now - turnEnd)
    {
      this.now, this.sliceStart := now, sliceStart;
      this.turnEnd, waited := turnEnd, now - turnEnd;
    }

    ghost function State(): Clock
      reads this
    {
      Clock(now, sliceStart, turnEnd, waited)
    }

    /** One call of `next`: the generator moves on, or returns its value. */
    method Next<S, T>(g: Generator<S, T>) returns (step: Next<S, T>)
      modifies this, g
      ensures step == g.steps.next(old(g.state))
      ensures g.state == if step.Yielded? then step.state else old(g.state)
      ensures State() == Worked(old(State()), g.steps.cost(old(g.state)))
    {
      step := g.steps.next(g.state);
      now := now + g.steps.cost(g.state);
      waited := Later(waited, now - turnEnd);
      if step.Yielded? { g.state := step.state; }
    }

    method YieldToEventLoop(turn: real)
      modifies this
      ensures now == old(now) + turn && sliceStart == now == turnEnd && waited == old(waited)
    {
      now := now + turn;
      turnEnd := now;
      sliceStart := now;
    }

    method MaybeYieldToEventLoop(turn: real)
      modifies this
      ensures State() == Checked(old(State()), turn)
    {
      if now - sliceStart < WORK_SLICE_MS { return; }
      YieldToEventLoop(turn);
    }

    /** Its synchronous form: call after call, the value of the last. */
    method RunSteps<S, T>(g: Generator<S, T>, ghost calls: nat) returns (value: T)
      requires EndsIn(g.steps, g.state, calls)
      modifies this, g
      ensures value == ResultOf(g.steps, old(g.state), calls)
    {
      var step := Next(g);
      ghost var left: nat := calls - 1;
      while step.Yielded?
        invariant if step.Yielded? then EndsIn(g.steps, g.state, left)
                                        && ResultOf(g.steps, g.state, left) == ResultOf(g.steps, old(g.state), calls)
                  else step.value == ResultOf(g.steps, old(g.state), calls)
        decreases step.Yielded?, left
      {
        step := Next(g);
        left := left - 1;
      }
      return step.value;
    }

    /** The same calls with a check after each but the last; how long a turn lasts is up to the host. */
    method RunStepsSliced<S, T>(g: Generator<S, T>, turns: nat -> real, ghost calls: nat) returns (value: T)
      requires EndsIn(g.steps, g.state, calls)
      modifies this, g
      ensures value == ResultOf(g.steps, old(g.state), calls)
      ensures State() == Sliced(old(State()), CostsOf(g.steps, old(g.state), calls), turns, 0)
    {
      var i := 0;
      var step := Next(g);
      ghost var left: nat := calls - 1;
      while step.Yielded?
        invariant if step.Yielded? then EndsIn(g.steps, g.state, left)
                                        && ResultOf(g.steps, g.state, left) == ResultOf(g.steps, old(g.state), calls)
                  else step.value == ResultOf(g.steps, old(g.state), calls)
        invariant Sliced(old(State()), CostsOf(g.steps, old(g.state), calls), turns, 0)
               == if step.Yielded?
                  then Sliced(Checked(State(), turns(i)), CostsOf(g.steps, g.state, left), turns, i + 1)
                  else State()
        decreases step.Yielded?, left
      {
        MaybeYieldToEventLoop(turns(i));
        step := Next(g);
        left := left - 1;
        i := i + 1;
      }
      return step.value;
    }
  }

  // ── How long the event loop waits ────────────────────────────────────────────────────────────

  ghost predicate Fits(costs: seq<real>, most: real) {
    costs != [] && forall i :: 0 <= i < |costs| ==> 0.0 <= costs[i] <= most
  }

  ghost predicate AllFit(runs: seq<seq<real>>, most: real) { forall k :: 0 <= k < |runs| ==> Fits(runs[k], most) }

  predicate Yields(costs: seq<real>) { |costs| > 1 }

  function Limit(n: nat, most: real): real { WORK_SLICE_MS + n as real * most }

  /** The thread has held the event loop for less than a slice and the steps since the last check. */
  ghost predicate Within(c: Clock, since: nat, most: real) {
    c.sliceStart <= c.turnEnd <= c.now && c.now - c.turnEnd < Limit(since, most)
  }

  /** Where a chain may start: less than a slice since the last turn, as after any check. */
  ghost predicate Ready(c: Clock) {
    c.sliceStart <= c.turnEnd <= c.now && c.now - c.turnEnd <= c.waited < WORK_SLICE_MS
  }

  ghost predicate Passes(turns: nat -> real) { forall i :: turns(i) >= 0.0 }

  function Max(a: nat, b: nat): nat { if a < b then b else a }

  /** The longest stretch of steps no check of the clock cuts, when `since` steps have run since the last. */
  function Stretch(since: nat, runs: seq<seq<real>>): nat
    decreases |runs|
  {
    if runs == [] then since
    else if Yields(runs[0]) then Max(since + 1, Stretch(1, runs[1..])) else Stretch(since + 1, runs[1..])
  }

  lemma LimitGrows(m: nat, n: nat, most: real)
    requires most >= 0.0 && m <= n
    ensures Limit(m, most) <= Limit(n, most)
  {
    assert Limit(n, most) - Limit(m, most) == (n - m) as real * most;
  }

  lemma {:induction false} SlicedBound(c: Clock, costs: seq<real>, turns: nat -> real, i: nat, since: nat, n: nat,
      most: real)
    requires Within(c, since, most) && Fits(costs, most) && Passes(turns)
    requires since < n && c.waited < Limit(n, most)
    ensures var d := Sliced(c, costs, turns, i);
            Within(d, if Yields(costs) then 1 else since + 1, most) && d.waited < Limit(n, most)
    decreases |costs|
  {
    var d := Worked(c, costs[0]);
    LimitGrows(since + 1, n, most);
    assert Within(d, since + 1, most);
    if |costs| > 1 { SlicedBound(Checked(d, turns(i)), costs[1..], turns, i + 1, 0, n, most); }
  }

  /** Statement after statement, the event loop never waits longer than a slice and the longest stretch. */
  lemma {:induction false} ChainBound(c: Clock, runs: seq<seq<real>>, turns: nat -> nat -> real, k: nat,
                                      since: nat, n: nat, most: real)
    requires Within(c, since, most) && AllFit(runs, most) && forall j :: Passes(turns(j))
    requires Stretch(since, runs) <= n && c.waited < Limit(n, most)
    ensures Chained(c, runs, turns, k).waited < Limit(n, most)
    decreases |runs|
  {
    if runs != [] {
      LongEnough(since, runs);
      SlicedBound(c, runs[0], turns(k), 0, since, n, most);
      ChainBound(Sliced(c, runs[0], turns(k), 0), runs[1..], turns, k + 1, if Yields(runs[0]) then 1
          else since + 1, n, most);
    }
  }

  lemma {:induction false} LongEnough(since: nat, runs: seq<seq<real>>)
    ensures since <= Stretch(since, runs) && (runs != [] ==> since + 1 <= Stretch(since, runs))
    decreases |runs|
  {
    if runs != [] { LongEnough(if Yields(runs[0]) then 1 else since + 1, runs[1..]); }
  }

  /** Every run but the first and the last yields. */
  predicate InnerYield(runs: seq<seq<real>>) { forall k :: 1 <= k < |runs| - 1 ==> Yields(runs[k]) }

  /** At most two steps run between checks exactly when every inner run yields. */
  lemma StretchTwo(runs: seq<seq<real>>)
    ensures Stretch(0, runs) <= 2 <==> InnerYield(runs)
  {
    if runs != [] {
      StretchAfterOne(runs[1..]);
      assert InnerYield(runs) <==> forall k :: 0 <= k < |runs[1..]| - 1 ==> Yields(runs[1..][k]) by {
        assert forall k :: 0 <= k < |runs[1..]| - 1 ==> runs[1..][k] == runs[k + 1];
        if forall k :: 0 <= k < |runs[1..]| - 1 ==> Yields(runs[1..][k]) {
          forall k | 1 <= k < |runs| - 1 ensures Yields(runs[k]) { assert Yields(runs[1..][k - 1]); }
        }
      }
    }
  }

  lemma {:induction false} StretchAfterOne(runs: seq<seq<real>>)
    ensures Stretch(1, runs) <= 2 <==> forall k :: 0 <= k < |runs| - 1 ==> Yields(runs[k])
    decreases |runs|
  {
    if runs != [] {
      var rest := runs[1..];
      StretchAfterOne(rest);
      LongEnough(2, rest);
      assert forall k :: 0 <= k < |rest| ==> rest[k] == runs[k + 1];
      if forall k :: 0 <= k < |rest| - 1 ==> Yields(rest[k]) {
        forall k | 1 <= k < |runs| - 1 ensures Yields(runs[k]) { assert Yields(rest[k - 1]); }
      }
    }
  }

  // ── The bound is exact ───────────────────────────────────────────────────────────────────────

  function Zeros(n: nat): seq<real> { seq(n, _ => 0.0) }

  /** Costs for runs of these lengths that leave three costly steps around the silent run `j` unchecked. */
  function Breaking(lengths: seq<nat>, j: nat, most: real): seq<seq<real>>
    requires 1 <= j < |lengths| - 1 && forall k :: 0 <= k < |lengths| ==> lengths[k] > 0
  {
    if j > 1 then [Zeros(lengths[0])] + Breaking(lengths[1..], j - 1, most)
    else [Zeros(lengths[0] - 1) + [most], Zeros(lengths[1] - 1) + [most], [most] + Zeros(lengths[2] - 1)]
         + seq(|lengths| - 3, k requires 0 <= k < |lengths| - 3 => Zeros(lengths[k + 3]))
  }

  ghost predicate Shaped(runs: seq<seq<real>>, lengths: seq<nat>) {
    |runs| == |lengths| && forall k :: 0 <= k < |runs| ==> |runs[k]| == lengths[k]
  }

  lemma {:induction false} BreakingFits(lengths: seq<nat>, j: nat, most: real)
    requires 1 <= j < |lengths| - 1 && (forall k :: 0 <= k < |lengths| ==> lengths[k] > 0) && most >= 0.0
    ensures Shaped(Breaking(lengths, j, most), lengths) && AllFit(Breaking(lengths, j, most), most)
    decreases j
  {
    if j > 1 { BreakingFits(lengths[1..], j - 1, most); }
  }

  /** Free steps that end in one of cost `last` change the clock by that step alone, while the slice lasts. */
  lemma {:induction false} FreeSteps(c: Clock, n: nat, last: real, turns: nat -> real, i: nat)
    requires c.now - c.sliceStart < WORK_SLICE_MS && c.now - c.turnEnd <= c.waited
    ensures Sliced(c, Zeros(n) + [last], turns, i) == Worked(c, last)
    decreases n
  {
    var costs := Zeros(n) + [last];
    if n > 0 {
      FreeSteps(c, n - 1, last, turns, i + 1);
      assert costs[1..] == Zeros(n - 1) + [last] && costs[0] == 0.0;
      assert Checked(Worked(c, 0.0), turns(i)) == c;
    }
  }

  lemma {:induction false} SlicedWaits(c: Clock, costs: seq<real>, turns: nat -> real, i: nat)
    ensures Sliced(c, costs, turns, i).waited >= c.waited
    ensures costs != [] ==> Sliced(c, costs, turns, i).waited >= Worked(c, costs[0]).waited
    decreases |costs|
  {
    if |costs| > 1 { SlicedWaits(Checked(Worked(c, costs[0]), turns(i)), costs[1..], turns, i + 1); }
  }

  lemma {:induction false} ChainedWaits(c: Clock, runs: seq<seq<real>>, turns: nat -> nat -> real, k: nat)
    ensures Chained(c, runs, turns, k).waited >= c.waited
    decreases |runs|
  {
    if runs != [] {
      SlicedWaits(c, runs[0], turns(k), 0);
      ChainedWaits(Sliced(c, runs[0], turns(k), 0), runs[1..], turns, k + 1);
    }
  }

  lemma {:induction false} BreakingWaits(c: Clock, lengths: seq<nat>, j: nat, most: real, turns: nat -> nat -> real,
      k: nat)
    requires 1 <= j < |lengths| - 1 && (forall i :: 0 <= i < |lengths| ==> lengths[i] > 0) && lengths[j] == 1
    requires c.now - c.sliceStart < WORK_SLICE_MS && 0.0 <= c.now - c.turnEnd <= c.waited && most >= 0.0
    ensures Chained(c, Breaking(lengths, j, most), turns, k).waited >= c.now - c.turnEnd + 3.0 * most
    decreases j
  {
    var runs := Breaking(lengths, j, most);
    if j > 1 {
      FreeSteps(c, lengths[0] - 1, 0.0, turns(k), 0);
      assert Zeros(lengths[0]) == Zeros(lengths[0] - 1) + [0.0];
      assert Worked(c, 0.0) == c && runs[1..] == Breaking(lengths[1..], j - 1, most);
      BreakingWaits(c, lengths[1..], j - 1, most, turns, k + 1);
    } else {
      ThreeSteps(c, lengths, most, turns, k, runs);
    }
  }

  lemma ThreeSteps(c: Clock, lengths: seq<nat>, most: real, turns: nat -> nat -> real, k: nat, runs: seq<seq<real>>)
    requires |lengths| > 2 && (forall i :: 0 <= i < |lengths| ==> lengths[i] > 0) && lengths[1] == 1
    requires runs == Breaking(lengths, 1, most)
    requires c.now - c.sliceStart < WORK_SLICE_MS && 0.0 <= c.now - c.turnEnd <= c.waited && most >= 0.0
    ensures Chained(c, runs, turns, k).waited >= c.now - c.turnEnd + 3.0 * most
  {
    FreeSteps(c, lengths[0] - 1, most, turns(k), 0);
    var a := Worked(c, most);
    var b := Worked(a, most);
    assert runs[1] == [most] && runs[2][0] == most && runs[1..][1..] == runs[2..] && runs[1..][0] == runs[1];
    SlicedWaits(b, runs[2], turns(k + 2), 0);
    ChainedWaits(Sliced(b, runs[2], turns(k + 2), 0), runs[2..][1..], turns, k + 3);
    assert Chained(c, runs, turns, k) == Chained(b, runs[2..], turns, k + 2);
  }

  /** Every chain with runs of these lengths and steps of at most `most` keeps to a slice and two steps. */
  ghost predicate KeepsToTwo(lengths: seq<nat>, most: real) {
    forall c: Clock, runs, turns: nat -> nat -> real ::
      Ready(c) && Shaped(runs, lengths) && AllFit(runs, most) && (forall j :: Passes(turns(j)))
      ==> Chained(c, runs, turns, 0).waited < 8.0 + 2.0 * most
  }

  /** The event loop waits less than 8 ms and two steps, whatever the steps cost and the turns take, exactly when
      every run between the first and the last yields. */
  lemma SliceBoundExact(lengths: seq<nat>, most: real)
    requires most > 0.0 && forall k :: 0 <= k < |lengths| ==> lengths[k] > 0
    ensures KeepsToTwo(lengths, most) <==> forall k :: 1 <= k < |lengths| - 1 ==> lengths[k] > 1
  {
    if forall k :: 1 <= k < |lengths| - 1 ==> lengths[k] > 1 {
      forall c: Clock, runs, turns: nat -> nat -> real
        | Ready(c) && Shaped(runs, lengths) && AllFit(runs, most) && (forall j :: Passes(turns(j)))
        ensures Chained(c, runs, turns, 0).waited < 8.0 + 2.0 * most
      {
        ChainKeeps(c, runs, turns, most);
      }
    } else {
      var j :| 1 <= j < |lengths| - 1 && lengths[j] <= 1;
      SilentBreaks(lengths, j, most);
    }
  }

  /** A clock, costs and turns with which a silent inner run breaks the bound. */
  lemma SilentBreaks(lengths: seq<nat>, j: nat, most: real)
    requires most > 0.0 && forall k :: 0 <= k < |lengths| ==> lengths[k] > 0
    requires 1 <= j < |lengths| - 1 && lengths[j] == 1
    ensures !KeepsToTwo(lengths, most)
  {
    var held := if most < 8.0 then 8.0 - most else 0.0;
    var c, turns := Clock(held, 0.0, 0.0, held), NoTime();
    hide Chained, Breaking, Shaped, AllFit, Fits;
    BreakingFits(lengths, j, most);
    BreakingWaits(c, lengths, j, most, turns, 0);
    assert Ready(c) && !(Chained(c, Breaking(lengths, j, most), turns, 0).waited < 8.0 + 2.0 * most);
  }

  /** Turns that take no time. */
  function NoTime(): (turns: nat -> nat -> real)
    ensures forall k :: Passes(turns(k))
  {
    (k: nat) => (i: nat) => 0.0
  }

  // ── A chain on the thread ────────────────────────────────────────────────────────────────────

  /** The generators return at these calls. */
  ghost predicate AllEnd<S, T>(runs: seq<Steps<S, T>>, calls: seq<nat>) {
    |calls| == |runs| && forall k :: 0 <= k < |runs| ==> EndsIn(runs[k], runs[k].start, calls[k])
  }

  ghost function AllCosts<S, T>(runs: seq<Steps<S, T>>, calls: seq<nat>): seq<seq<real>>
    requires AllEnd(runs, calls)
  {
    seq(|runs|, k requires 0 <= k < |runs| => CostsOf(runs[k], runs[k].start, calls[k]))
  }

  /** Statement after statement on one thread: each gives its generator's value, and the event loop waits no longer
      than a slice and the longest stretch between checks, two steps when every inner run yields. */
  method RunChain<S, T>(thread: Thread, runs: seq<Steps<S, T>>, turns: nat -> nat -> real, ghost calls: seq<nat>,
                        ghost most: real) returns (values: seq<T>)
    requires AllEnd(runs, calls) && AllFit(AllCosts(runs, calls), most) && most >= 0.0
    requires Ready(thread.State()) && forall k :: Passes(turns(k))
    modifies thread
    ensures |values| == |runs|
    ensures forall k :: 0 <= k < |runs| ==> values[k] == ResultOf(runs[k], runs[k].start, calls[k])
    ensures thread.State() == Chained(old(thread.State()), AllCosts(runs, calls), turns, 0)
    ensures thread.waited < Limit(Stretch(0, AllCosts(runs, calls)), most)
    ensures InnerYield(AllCosts(runs, calls)) ==> thread.waited < 8.0 + 2.0 * most
  {
    hide Chained, Sliced, CostsOf, ResultOf, EndsIn, Fits, Stretch, InnerYield, Limit, Ready;
    values := [];
    ghost var first, costs := thread.State(), AllCosts(runs, calls);
    assert costs[0..] == costs;
    while |values| < |runs|
      invariant |values| <= |runs|
      invariant forall k :: 0 <= k < |values| ==> values[k] == ResultOf(runs[k], runs[k].start, calls[k])
      invariant Chained(first, costs, turns, 0) == Chained(thread.State(), costs[|values|..], turns, |values|)
    {
      var k := |values|;
      var g := new Generator(runs[k]);
      ChainStep(thread.State(), costs, turns, k);
      var value := thread.RunStepsSliced(g, turns(k), calls[k]);
      values := values + [value];
    }
    assert costs[|runs|..] == [];
    NoRuns(thread.State(), turns, |runs|);
    ChainKeeps(first, costs, turns, most);
  }

  lemma NoRuns(c: Clock, turns: nat -> nat -> real, k: nat)
    ensures Chained(c, [], turns, k) == c
  {
  }

  lemma ChainKeeps(c: Clock, runs: seq<seq<real>>, turns: nat -> nat -> real, most: real)
    requires Ready(c) && AllFit(runs, most) && most >= 0.0 && forall k :: Passes(turns(k))
    ensures Chained(c, runs, turns, 0).waited < Limit(Stretch(0, runs), most)
    ensures InnerYield(runs) ==> Chained(c, runs, turns, 0).waited < 8.0 + 2.0 * most
  {
    assert Limit(0, most) == 8.0 && Limit(2, most) == 8.0 + 2.0 * most;
    StretchTwo(runs);
    LimitGrows(0, Stretch(0, runs), most);
    ChainBound(c, runs, turns, 0, 0, Stretch(0, runs), most);
    if Stretch(0, runs) <= 2 { LimitGrows(Stretch(0, runs), 2, most); }
  }

  lemma ChainStep(c: Clock, costs: seq<seq<real>>, turns: nat -> nat -> real, k: nat)
    requires k < |costs|
    ensures Chained(c, costs[k..], turns, k) == Chained(Sliced(c, costs[k], turns(k), 0), costs[k + 1..], turns, k + 1)
  {
    assert costs[k..][1..] == costs[k + 1..];
  }
}
