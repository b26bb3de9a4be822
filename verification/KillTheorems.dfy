/** What the kill campaign guarantees, over every run. */
module KillTheorems {
  import opened Wrappers
  import opened ChaosTypes
  import opened ChaosStore
  import opened KillCampaign
  import opened KillInvariant
  import opened KillSafety

  // ── Every reachable state ────────────────────────────────────────────────────────────────────

  lemma StartInv(mode: Mode)
    ensures Inv(Start(mode, true)) && Start(mode, true).mode == mode
  {
    var s := ChaosState(EMPTY_ROOT, 1, 0);
    assert Start(mode, true) == Begin(mode, true, s, Store(EMPTY_ROOT, Log(Some(1), None, [], 0)));
    BeginInv(mode, s, Store(EMPTY_ROOT, Log(Some(1), None, [], 0)));
  }

  lemma {:induction false} RunInv(start: World, actions: seq<Action>, w: World)
    requires Inv(start) && Reaches(start, actions, w)
    ensures Inv(w)
    decreases |actions|
  {
    if actions != [] {
      hide Inv;
      StepInv(start, actions[0]);
      RunInv(Apply(start, actions[0]), actions[1..], w);
    }
  }

  /** No run, over any number of kills, ever condemns a store that keeps its contract: whatever the killed
      worker's last storage work and the crash leave, the next worker's recovery accepts it, at the root the
      store holds and with every acknowledged byte that no operation in flight may have cut. */
  lemma NeverCondemned(mode: Mode, actions: seq<Action>, w: World, img: Image)
    requires Reaches(Start(mode, true), actions, w) && w.phase.Judged? && MayLeave(w.store, img)
    ensures Recover(Some(w.phase.told), img).Accepted?
    ensures Recover(Some(w.phase.told), img).state.root == w.store.root
    ensures Allowed(Some(w.phase.told), img)
  {
    StartInv(mode);
    RunInv(Start(mode, true), actions, w);
    JudgedIsAllowed(w, img);
    RecoverIff(Some(w.phase.told), img);
    RecoverSettles(Some(w.phase.told), img);
  }

  /** An operation whose storage work has begun and whose end the page has not received is in flight: a go
      is sent only for a recorded intent, and one that arrives while the page holds gets none. */
  lemma BegunIsInFlight(mode: Mode, actions: seq<Action>, w: World, k: nat, s: nat)
    requires Reaches(Start(mode, true), actions, w)
    requires Says(w, k, Message.Began(s)) && !DoneBy(w, w.view.received, s)
    ensures exists x :: x in w.view.inFlight && x.sequence == s
  {
    StartInv(mode);
    RunInv(Start(mode, true), actions, w);
    hide Numbering, Observed, Lanes, RootInv, LogInv;
    GateShows(w, k, s);
  }

  lemma GateShows(w: World, k: nat, s: nat)
    requires Booked(w) && Gate(w) && Says(w, k, Message.Began(s)) && !DoneBy(w, w.view.received, s)
    ensures exists x :: x in w.view.inFlight && x.sequence == s
  {
    assert Entered(w, s - 1);
  }

  // ── The observation barrier ──────────────────────────────────────────────────────────────────

  ghost predicate NoRestart(actions: seq<Action>) {
    forall a :: a in actions ==> !a.Restart?
  }

  /** What holds after the counter was read at `u`. */
  ghost predicate Since(u: World, w: World) {
    && u.hist <= w.hist
    && (w.phase.Barrier? || w.phase.Judged? || w.phase.Refused?)
    && (w.phase.Barrier? ==> w.phase.posted == u.counter)
    && (w.phase.Judged? ==> u.counter <= w.view.received && w.view.failure.None?)
  }

  lemma SinceStep(u: World, w: World, a: Action)
    requires Inv(w) && Since(u, w) && Enabled(w, a) && !a.Restart?
    ensures Since(u, Apply(w, a))
  {
    hide Observed, Booked, Lanes, Gate, RootInv, LogInv, MoveOf, Receive;
    if a.Work? { PostShape(w, a.post); } else if a.Deliver? { DeliverShape(w); }
  }

  lemma {:induction false} SinceRun(u: World, w: World, actions: seq<Action>, v: World)
    requires Inv(w) && Since(u, w) && NoRestart(actions) && Reaches(w, actions, v)
    ensures Since(u, v) && Inv(v)
    decreases |actions|
  {
    if actions != [] {
      hide Inv, Since;
      SinceStep(u, w, actions[0]);
      StepInv(w, actions[0]);
      SinceRun(u, Apply(w, actions[0]), actions[1..], v);
    }
  }

  /** If the page judges, it has received, gap-free and in order, every message claimed before it read the counter,
      posted by then or not; its acknowledged state is at least that new, and none of them was a failure. */
  lemma BarrierComplete(u: World, actions: seq<Action>, v: World)
    requires Inv(u) && Enabled(u, Kill) && NoRestart(actions) && Reaches(Apply(u, Kill), actions, v)
    requires v.phase.Judged?
    ensures |u.hist| == u.counter <= v.view.received <= |v.hist| && u.hist <= v.hist[..v.view.received]
    ensures forall k :: 0 <= k < v.view.received ==> v.hist[k].n == k + 1
    ensures v.phase.told.state == LatestAt(v.base, v.hist, v.view.received)
    ensures forall k :: 0 <= k < |u.hist| ==> !u.hist[k].message.Failure?
  {
    StepInv(u, Kill);
    SinceRun(u, Apply(u, Kill), actions, v);
    forall k: nat | k < |u.hist| && Fails(u, k) ensures false { assert Fails(v, k); }
    assert forall k: nat :: k < |u.hist| ==> (Fails(u, k) <==> u.hist[k].message.Failure?);
  }

  // ── Which failure is reported ────────────────────────────────────────────────────────────────

  /** The text of the first failure among the first `n` messages. */
  ghost function FirstFail(hist: seq<Numbered>, n: nat): Option<string>
    requires n <= |hist|
  {
    if n == 0 then None
    else
      var before := FirstFail(hist, n - 1);
      if before.None? && hist[n - 1].message.Failure? then Some(hist[n - 1].message.text) else before
  }

  /** What the page holds as its failure is the first one it received. */
  ghost predicate Reports(w: World) {
    w.view.received <= |w.hist| && w.view.failure == FirstFail(w.hist, w.view.received)
  }

  lemma {:induction false} FirstFailPrefix(hist: seq<Numbered>, more: seq<Numbered>, n: nat)
    requires n <= |hist| && hist <= more
    ensures FirstFail(more, n) == FirstFail(hist, n)
  {
    if n > 0 { FirstFailPrefix(hist, more, n - 1); }
  }

  lemma {:induction false} FirstFailIs(hist: seq<Numbered>, n: nat, k: nat)
    requires k < n <= |hist| && hist[k].message.Failure?
    requires forall j :: 0 <= j < k ==> !hist[j].message.Failure?
    ensures FirstFail(hist, n) == Some(hist[k].message.text)
    decreases n
  {
    if n > k + 1 { FirstFailIs(hist, n - 1, k); } else { NoFail(hist, k); }
  }

  lemma {:induction false} NoFail(hist: seq<Numbered>, n: nat)
    requires n <= |hist| && forall j :: 0 <= j < n ==> !hist[j].message.Failure?
    ensures FirstFail(hist, n) == None
  {
    if n > 0 { NoFail(hist, n - 1); }
  }

  /** The first failure stays; a message in its order adds none but its own. */
  lemma ReceiveFails(u: View, mode: Mode, x: Numbered)
    requires x.n == u.received + 1
    ensures var v := Receive(u, mode, x).view;
            v.received == u.received + 1
            && v.failure == if u.failure.None? && x.message.Failure? then Some(x.message.text) else u.failure
  {
  }

  lemma BeginReports(mode: Mode, claimFirst: bool, s: ChaosState, store: Store)
    ensures Reports(Begin(mode, claimFirst, s, store))
  {
    var w := Begin(mode, claimFirst, s, store);
    assert FirstFail(w.hist, 1) == FirstFail(w.hist, 0);
  }

  lemma StepReports(w: World, a: Action)
    requires Inv(w) && Reports(w) && Enabled(w, a)
    ensures Reports(Apply(w, a))
  {
    match a
    case Work(p) =>
      PostShape(w, p);
      hide Inv, WorkerStep, MoveOf, May;
      FirstFailPrefix(w.hist, WorkerStep(w, p).hist, w.view.received);
    case Deliver =>
      ReceiveFails(w.view, w.mode, w.hist[w.view.received]);
      hide Observed, Booked, Lanes, Gate, RootInv, LogInv, Receive;
    case Restart(img) =>
      hide Numbering, Observed, Booked, Lanes, Gate, RootInv, LogInv, Recover, MayLeave;
      var v := Recover(Some(w.phase.told), img);
      if v.Accepted? { BeginReports(w.mode, w.claimFirst, v.state, v.store); }
    case _ => hide Inv, Numbering, Observed, Booked, Lanes, Gate, RootInv, LogInv;
  }

  lemma {:induction false} RunReports(start: World, actions: seq<Action>, w: World)
    requires Inv(start) && Reports(start) && Reaches(start, actions, w)
    ensures Inv(w) && Reports(w)
    decreases |actions|
  {
    if actions != [] {
      hide Inv, Reports;
      StepInv(start, actions[0]);
      StepReports(start, actions[0]);
      RunReports(Apply(start, actions[0]), actions[1..], w);
    }
  }

  lemma KilledSince(u: World)
    requires Inv(u) && Enabled(u, Kill)
    ensures Since(u, Apply(u, Kill)) && u.counter == |u.hist|
  {
    hide Booked, Lanes, Gate, RootInv, LogInv, Observed;
  }

  /** The failure-path regression: whenever the page reads the counter, the first failure claimed by then, posted or
      not, is the one whose text is reported by whatever resolves the barrier; the campaign never judges past it. */
  lemma FailureReported(u: World, actions: seq<Action>, w: World, k: nat)
    requires Inv(u) && Reports(u) && Enabled(u, Kill) && NoRestart(actions) && Reaches(Apply(u, Kill), actions, w)
    requires k < u.counter && u.hist[k].message.Failure? && Enabled(w, Resolve)
    requires forall j :: 0 <= j < k ==> !u.hist[j].message.Failure?
    ensures Apply(w, Resolve).phase == Refused(u.hist[k].message.text)
  {
    StepInv(u, Kill);
    StepReports(u, Kill);
    KilledSince(u);
    hide Inv, Booked, Lanes, Gate, RootInv, LogInv, Observed, Reaches;
    SinceRun(u, Apply(u, Kill), actions, w);
    RunReports(Apply(u, Kill), actions, w);
    FirstFailIs(w.hist, w.view.received, k);
  }

  lemma StartReports(mode: Mode)
    ensures Reports(Start(mode, true))
  {
    var s, store := ChaosState(EMPTY_ROOT, 1, 0), Store(EMPTY_ROOT, Log(Some(1), None, [], 0));
    assert Start(mode, true) == Begin(mode, true, s, store);
    BeginReports(mode, true, s, store);
  }

  /** In every run of the campaign, over any number of kills. */
  lemma FaultAlwaysReported(mode: Mode, before: seq<Action>, u: World, actions: seq<Action>, w: World, k: nat)
    requires Reaches(Start(mode, true), before, u)
    requires Enabled(u, Kill) && NoRestart(actions) && Reaches(Apply(u, Kill), actions, w)
    requires k < u.counter == |u.hist| && u.hist[k].message.Failure? && Enabled(w, Resolve)
    requires forall j :: 0 <= j < k ==> !u.hist[j].message.Failure?
    ensures Apply(w, Resolve).phase == Refused(u.hist[k].message.text)
  {
    StartInv(mode);
    StartReports(mode);
    RunReports(Start(mode, true), before, u);
    hide Inv, Reports;
    FailureReported(u, actions, w, k);
  }

  // ── Posting before claiming ──────────────────────────────────────────────────────────────────

  /** With the counter stored after the post, a kill between the two is judged although a failure was
      posted before it: the order of the two halves is what the barrier rests on. */
  lemma PostFirstLosesFailure(mode: Mode, text: string)
    ensures var u := Apply(Start(mode, false), Work(Say(Failure(text))));
      && Reaches(Start(mode, false), [Work(Say(Failure(text)))], u) && Enabled(u, Kill)
      && u.posted == |u.hist| && u.hist != [] && u.hist[|u.hist| - 1].message == Failure(text)
      && Enabled(Apply(u, Kill), Resolve) && Apply(Apply(u, Kill), Resolve).phase.Judged?
  {
    var start := Start(mode, false);
    var u := Apply(start, Work(Say(Failure(text))));
    assert [Work(Say(Failure(text)))][1..] == [];
    assert Reaches(u, [], u);
  }
}
