/** What the page's `hold`, its armed kills and its remaining notes mean, in terms of the messages received. */
module KillHold {
  import opened Wrappers
  import opened ChaosTypes
  import opened ChaosStore
  import opened KillCampaign
  import opened KillInvariant
  import opened KillSafety
  import opened KillTheorems
  import opened KillLanding

  // ── Nothing starts while the page holds ──────────────────────────────────────────────────────

  lemma HoldStep(w: World, a: Action)
    requires w.view.hold && Enabled(w, a) && !a.Restart?
    ensures var v := Apply(w, a);
      v.view.hold && v.gos == w.gos && forall x :: x in v.view.inFlight ==> x in w.view.inFlight
  {
    hide MoveOf, May, LogWork, MayLeave, Recover;
  }

  /** From the moment the page holds, for the rest of the run: it holds, no operation gets a go, and none is
      recorded as in flight that was not. */
  lemma {:induction false} HoldStartsNothing(u: World, actions: seq<Action>, w: World)
    requires u.view.hold && NoRestart(actions) && Reaches(u, actions, w)
    ensures w.view.hold && w.gos == u.gos
    ensures forall x :: x in w.view.inFlight ==> x in u.view.inFlight
    decreases |actions|
  {
    if actions != [] {
      hide Enabled, Apply;
      HoldStep(u, actions[0]);
      HoldStartsNothing(Apply(u, actions[0]), actions[1..], w);
    }
  }

  // ── When the page starts to hold ─────────────────────────────────────────────────────────────

  /** How many of the messages from `first` up to `end` announce the step. */
  ghost function Times(hist: seq<Numbered>, first: nat, end: nat, step: StepKind): nat
    requires end <= |hist|
  {
    if end <= first then 0
    else
      var m := hist[end - 1].message;
      Times(hist, first, end - 1, step) + (if m.Announce? && m.intent.step == step then 1 else 0)
  }

  /** Message `k` closes the page that `u` prepared: the injected fault's marker, or, in serial mode, the intent that
      the armed page close counts down to. */
  ghost predicate Closes(u: World, hist: seq<Numbered>, k: nat)
    requires k < |hist|
  {
    || (hist[k].message == Injecting && u.view.faultArmed)
    || (u.mode == Serial
        && u.view.armed.Some? && u.view.armed.value.page
        && hist[k].message.Announce? && hist[k].message.intent.step == u.view.armed.value.target
        && Times(hist, u.view.received, k + 1, u.view.armed.value.target) == u.view.armed.value.remaining)
  }

  /** Some message from `u` on, before the `n`-th, closed the page. */
  ghost predicate ClosedBy(u: World, hist: seq<Numbered>, n: nat)
    requires n <= |hist|
  {
    exists k: nat :: u.view.received <= k < n && Closes(u, hist, k)
  }

  /** The operation announced by message `k`, no message before which closed the page. */
  ghost predicate Answered(u: World, hist: seq<Numbered>, k: nat, s: nat)
    requires k < |hist|
  {
    u.view.received <= k && hist[k].message.Announce? && hist[k].message.intent.sequence == s && !ClosedBy(u, hist, k)
  }

  /** What is left of the armed kill after `n` announcements of its step. */
  ghost function Left(armed: Option<Armed>, n: nat): Option<Armed> {
    if armed.None? || 1 <= armed.value.remaining <= n then None
    else Some(armed.value.(remaining := armed.value.remaining - n))
  }

  ghost function Count(u: World, hist: seq<Numbered>, n: nat): nat
    requires n <= |hist|
  {
    if u.mode == Serial && u.view.armed.Some? then Times(hist, u.view.received, n, u.view.armed.value.target) else 0
  }

  /** What the page is, `u` having prepared it, after the messages received since. */
  ghost predicate Waits(u: World, w: World) {
    && u.view.received <= w.view.received <= |w.hist| && u.hist <= w.hist && w.mode == u.mode
    && (w.view.hold <==> ClosedBy(u, w.hist, w.view.received))
    && (!w.view.hold ==>
          && w.view.armed == Left(u.view.armed, Count(u, w.hist, w.view.received))
          && w.view.faultArmed == u.view.faultArmed
          && (w.view.armed.None? && u.view.armed.Some? ==> !u.view.armed.value.page))
  }

  ghost predicate Goes(u: World, w: World)
    requires w.view.received <= |w.hist|
  {
    forall s :: s in w.gos <==>
      s in u.gos || exists k: nat :: k < w.view.received && Answered(u, w.hist, k, s)
  }

  lemma {:induction false} TimesPrefix(hist: seq<Numbered>, more: seq<Numbered>, first: nat, end: nat, step: StepKind)
    requires end <= |hist| && hist <= more
    ensures Times(more, first, end, step) == Times(hist, first, end, step)
    decreases end
  {
    if end > first { TimesPrefix(hist, more, first, end - 1, step); }
  }

  lemma SameClosing(u: World, hist: seq<Numbered>, more: seq<Numbered>, n: nat)
    requires n <= |hist| && hist <= more
    ensures forall k: nat :: k < n ==> (Closes(u, more, k) <==> Closes(u, hist, k))
    ensures forall k: nat :: k <= n ==> (ClosedBy(u, more, k) <==> ClosedBy(u, hist, k))
    ensures Count(u, more, n) == Count(u, hist, n)
    ensures forall k: nat, s :: k < n ==> (Answered(u, more, k, s) <==> Answered(u, hist, k, s))
  {
    if u.view.armed.Some? {
      var step := u.view.armed.value.target;
      forall k: nat | k <= n
        ensures Times(more, u.view.received, k, step) == Times(hist, u.view.received, k, step)
      {
        TimesPrefix(hist, more, u.view.received, k, step);
      }
    }
    assert forall k: nat :: k < n ==> (Closes(u, more, k) <==> Closes(u, hist, k));
    forall k: nat | k <= n ensures ClosedBy(u, more, k) <==> ClosedBy(u, hist, k) {
      if j: nat :| u.view.received <= j < k && Closes(u, more, j) { assert Closes(u, hist, j); }
      if j: nat :| u.view.received <= j < k && Closes(u, hist, j) { assert Closes(u, more, j); }
    }
  }

  /** A step that delivers nothing and prepares nothing leaves the page as it is. */
  lemma OtherStep(w: World, a: Action)
    requires Inv(w) && Enabled(w, a) && !a.Restart? && !a.Prepare? && !a.Deliver?
    ensures var v := Apply(w, a); v.view == w.view && v.gos == w.gos && v.mode == w.mode && w.hist <= v.hist
  {
    hide Booked, Lanes, Gate, RootInv, LogInv, Observed, MoveOf, May, LogWork, MayLeave, Recover, Receive;
    if a.Work? { PostShape(w, a.post); }
  }

  lemma OtherWaits(u: World, w: World, v: World)
    requires Waits(u, w) && Goes(u, w)
    requires v.view == w.view && v.gos == w.gos && v.mode == w.mode && w.hist <= v.hist
    ensures Waits(u, v) && Goes(u, v)
  {
    SameClosing(u, w.hist, v.hist, w.view.received);
    hide Answered, ClosedBy, Count, Closes, Left;
    var n := w.view.received;
    forall s ensures s in v.gos <==> s in u.gos || exists k: nat :: k < n && Answered(u, v.hist, k, s) {
      if k: nat :| k < n && Answered(u, v.hist, k, s) { assert Answered(u, w.hist, k, s); }
      if k: nat :| k < n && Answered(u, w.hist, k, s) { assert Answered(u, v.hist, k, s); }
    }
  }

  lemma OneMore(u: World, hist: seq<Numbered>, n: nat)
    requires u.view.received <= n < |hist|
    ensures ClosedBy(u, hist, n + 1) <==> ClosedBy(u, hist, n) || Closes(u, hist, n)
  {
    if ClosedBy(u, hist, n) { var k: nat :| u.view.received <= k < n && Closes(u, hist, k); assert k < n + 1; }
  }

  /** One more message received by a page that waits. */
  lemma DeliverWaits(u: World, w: World)
    requires Waits(u, w) && w.view.received < |w.hist| && w.hist[w.view.received].n == w.view.received + 1
    ensures Waits(u, Delivered(w))
  {
    OneMore(u, w.hist, w.view.received);
    hide ClosedBy, Put, Drop;
  }

  lemma DeliverGoes(u: World, w: World)
    requires Waits(u, w) && Goes(u, w)
    requires w.view.received < |w.hist| && w.hist[w.view.received].n == w.view.received + 1
    ensures Goes(u, Delivered(w))
  {
    hide ClosedBy, Closes, Put, Drop, Left, Count;
    var v, n := Delivered(w), w.view.received;
    forall s ensures s in v.gos <==> s in u.gos || exists k: nat :: k < n + 1 && Answered(u, w.hist, k, s) {
      if k: nat :| k < n && Answered(u, w.hist, k, s) { assert k < n + 1; }
      if Answered(u, w.hist, n, s) { assert s in v.gos; }
    }
  }

  ghost predicate Undisturbed(actions: seq<Action>) {
    forall a :: a in actions ==> !a.Restart? && !a.Prepare?
  }

  lemma {:induction false} RunWaits(u: World, w: World, actions: seq<Action>, v: World)
    requires Inv(w) && Waits(u, w) && Goes(u, w) && Undisturbed(actions) && Reaches(w, actions, v)
    ensures Waits(u, v) && Goes(u, v)
    decreases |actions|
  {
    if actions != [] {
      hide Inv, Waits, Goes, Apply, Enabled;
      var a := actions[0];
      StepInv(w, a);
      StepWaits(u, w, a);
      RunWaits(u, Apply(w, a), actions[1..], v);
    }
  }

  lemma StepWaits(u: World, w: World, a: Action)
    requires Inv(w) && Waits(u, w) && Goes(u, w) && Enabled(w, a) && !a.Restart? && !a.Prepare?
    ensures Waits(u, Apply(w, a)) && Goes(u, Apply(w, a))
  {
    if a.Deliver? {
      NextNumber(w);
      hide Inv, Waits, Goes;
      DeliverWaits(u, w);
      DeliverGoes(u, w);
    } else {
      OtherStep(w, a);
      hide Inv, Waits, Goes, Apply, Enabled;
      OtherWaits(u, w, Apply(w, a));
    }
  }

  lemma NextNumber(w: World)
    requires Inv(w) && Enabled(w, Deliver)
    ensures w.view.received < |w.hist| && w.hist[w.view.received].n == w.view.received + 1
  {
    hide Observed, Booked, Lanes, Gate, RootInv, LogInv;
  }

  lemma ReceivedClaimed(w: World)
    requires Inv(w)
    ensures w.view.received <= |w.hist|
  {
    hide Numbering, Booked, Lanes, Gate, RootInv, LogInv;
  }

  /** Once prepared, the page starts to hold at exactly one kind of message: in serial mode the intent that is the
      `remaining`-th of its target since an armed page close, or an injected fault's marker. The operations announced
      up to and including that message, and only those, get their go. */
  lemma HoldsExactly(mode: Mode, before: seq<Action>, u: World, actions: seq<Action>, w: World)
    requires Reaches(Start(mode, true), before, u) && !u.view.hold
    requires Undisturbed(actions) && Reaches(u, actions, w)
    ensures u.hist <= w.hist && u.view.received <= w.view.received <= |w.hist|
    ensures w.view.hold <==> exists k: nat :: u.view.received <= k < w.view.received && Closes(u, w.hist, k)
    ensures forall s :: s in w.gos <==>
              s in u.gos || exists k: nat :: k < w.view.received && Answered(u, w.hist, k, s)
    ensures !w.view.hold ==> w.view.armed == Left(u.view.armed, Count(u, w.hist, w.view.received))
  {
    StartInv(mode);
    RunInv(Start(mode, true), before, u);
    ReceivedClaimed(u);
    hide Inv, Reaches, Apply, Enabled;
    WaitsItself(u);
    RunWaits(u, u, actions, w);
    hide Answered, Closes, Left, Count;
  }

  lemma WaitsItself(u: World)
    requires u.view.received <= |u.hist| && !u.view.hold
    ensures Waits(u, u) && Goes(u, u)
  {
  }

  // ── What is in flight ────────────────────────────────────────────────────────────────────────

  ghost predicate Granted(w: World) { forall x :: x in w.view.inFlight ==> x.sequence in w.gos }

  lemma StepGranted(w: World, a: Action)
    requires Inv(w) && Granted(w) && Enabled(w, a)
    ensures Granted(Apply(w, a))
  {
    hide Inv, Recover, MayLeave, May, MoveOf, LogWork;
  }

  lemma {:induction false} RunGranted(start: World, actions: seq<Action>, w: World)
    requires Inv(start) && Granted(start) && Reaches(start, actions, w)
    ensures Granted(w)
    decreases |actions|
  {
    if actions != [] {
      hide Inv, Granted, Apply, Enabled;
      StepInv(start, actions[0]);
      StepGranted(start, actions[0]);
      RunGranted(Apply(start, actions[0]), actions[1..], w);
    }
  }

  lemma StartGranted(mode: Mode)
    ensures var w := Start(mode, true); Inv(w) && Noted(w) && Ordered(w) && OneByOne(w) && Granted(w)
  {
    var s, store := ChaosState(EMPTY_ROOT, 1, 0), Store(EMPTY_ROOT, Log(Some(1), None, [], 0));
    assert Start(mode, true) == Begin(mode, true, s, store);
    StartInv(mode);
    BeginNoted(mode, s, store);
  }

  /** The page has an operation in flight exactly when it received its intent, sent its go, and has not received
      its end. */
  lemma InFlightExactly(mode: Mode, actions: seq<Action>, w: World, x: Intent)
    requires Reaches(Start(mode, true), actions, w)
    ensures x in w.view.inFlight <==>
      && (exists k: nat :: k < w.view.received && Says(w, k, Announce(x)))
      && x.sequence in w.gos
      && !DoneBy(w, w.view.received, x.sequence)
  {
    hide Start, Numbering, Observed, Booked, Lanes, Gate, RootInv, LogInv, Noted, Ordered, OneByOne, Granted, Reaches,
        DoneBy, Says;
    StartGranted(mode);
    RunNoted(Start(mode, true), actions, w);
    RunGranted(Start(mode, true), actions, w);
    BookedInFlight(w, x);
  }

  lemma BookedInFlight(w: World, x: Intent)
    requires Booked(w) && Gate(w) && Ordered(w) && Granted(w)
    ensures x in w.view.inFlight <==>
      && (exists k: nat :: k < w.view.received && Says(w, k, Announce(x)))
      && x.sequence in w.gos
      && !DoneBy(w, w.view.received, x.sequence)
  {
    hide DoneBy, Distinct;
    if x in w.view.inFlight { assert Entered(w, x.sequence - 1); }
  }

  // ── Requests and completions ─────────────────────────────────────────────────────────────────

  ghost function Dones(hist: seq<Numbered>, n: nat): nat
    requires n <= |hist|
  {
    if n == 0 then 0 else Dones(hist, n - 1) + (if hist[n - 1].message.Done? then 1 else 0)
  }

  ghost predicate About(hist: seq<Numbered>, k: nat, id: nat) {
    k < |hist| && hist[k].message.Request? && hist[k].message.id == id
  }

  /** Message `k` is the last about the request among the first `n`. */
  ghost predicate LastAbout(hist: seq<Numbered>, n: nat, k: nat, id: nat) {
    k < n && About(hist, k, id) && forall j: nat :: k < j < n ==> !About(hist, j, id)
  }

  /** The page counts the ends received and shows each open request as its latest begin names it. */
  ghost predicate Tallied(w: World) {
    && w.view.received <= |w.hist|
    && w.view.completed == Dones(w.hist, w.view.received)
    && (forall id :: id in w.view.requests ==>
          exists k: nat :: LastAbout(w.hist, w.view.received, k, id)
            && w.hist[k].message == Request(id, true, w.view.requests[id]))
  }

  lemma {:induction false} DonesPrefix(hist: seq<Numbered>, more: seq<Numbered>, n: nat)
    requires n <= |hist| && hist <= more
    ensures Dones(more, n) == Dones(hist, n)
  {
    if n > 0 { DonesPrefix(hist, more, n - 1); }
  }

  lemma OtherTallied(w: World, v: World)
    requires Tallied(w) && w.hist <= v.hist
    requires v.view.received == w.view.received && v.view.completed == w.view.completed
    requires v.view.requests == w.view.requests
    ensures Tallied(v)
  {
    var n := w.view.received;
    DonesPrefix(w.hist, v.hist, n);
    forall id | id in v.view.requests
      ensures exists k: nat ::
                LastAbout(v.hist, n, k, id) && v.hist[k].message == Request(id, true, v.view.requests[id])
    {
      var k: nat :| LastAbout(w.hist, n, k, id) && w.hist[k].message == Request(id, true, w.view.requests[id]);
      assert forall j: nat :: j < n ==> (About(v.hist, j, id) <==> About(w.hist, j, id));
      assert LastAbout(v.hist, n, k, id);
    }
  }

  lemma DeliverTallied(w: World)
    requires Tallied(w) && w.view.received < |w.hist| && w.hist[w.view.received].n == w.view.received + 1
    ensures Tallied(Delivered(w))
  {
    hide Put, Drop;
    var v, n := Delivered(w), w.view.received;
    forall id | id in v.view.requests
      ensures exists k: nat :: LastAbout(w.hist, n + 1, k, id)
                && w.hist[k].message == Request(id, true, v.view.requests[id])
    {
      if About(w.hist, n, id) {
        assert LastAbout(w.hist, n + 1, n, id);
      } else {
        var k: nat :| LastAbout(w.hist, n, k, id) && w.hist[k].message == Request(id, true, w.view.requests[id]);
        assert LastAbout(w.hist, n + 1, k, id);
      }
    }
  }

  lemma BeginTallied(mode: Mode, s: ChaosState, store: Store)
    ensures Tallied(Begin(mode, true, s, store))
  {
    assert Dones(Begin(mode, true, s, store).hist, 0) == 0;
  }

  lemma StepTallied(w: World, a: Action)
    requires Inv(w) && Tallied(w) && Enabled(w, a)
    ensures Tallied(Apply(w, a))
  {
    match a
    case Deliver =>
      NextNumber(w);
      hide Inv, Tallied;
      DeliverTallied(w);
    case Restart(img) =>
      InvClaimsFirst(w);
      hide Inv, Tallied, Recover, MayLeave;
      var r := Recover(Some(w.phase.told), img);
      if r.Accepted? { BeginTallied(w.mode, r.state, r.store); } else { OtherTallied(w, Apply(w, a)); }
    case Prepare(_, _, _) =>
      hide Inv, Tallied;
      OtherTallied(w, Apply(w, a));
    case _ =>
      OtherStep(w, a);
      hide Inv, Tallied, Apply, Enabled;
      OtherTallied(w, Apply(w, a));
  }

  lemma {:induction false} RunTallied(start: World, actions: seq<Action>, w: World)
    requires Inv(start) && Tallied(start) && Reaches(start, actions, w)
    ensures Tallied(w)
    decreases |actions|
  {
    if actions != [] {
      hide Inv, Tallied, Apply, Enabled;
      StepInv(start, actions[0]);
      StepTallied(start, actions[0]);
      RunTallied(Apply(start, actions[0]), actions[1..], w);
    }
  }

  /** Over every run of the campaign. */
  lemma NotesAreTrue(mode: Mode, actions: seq<Action>, w: World)
    requires Reaches(Start(mode, true), actions, w)
    ensures w.view.received <= |w.hist| && w.view.completed == Dones(w.hist, w.view.received)
    ensures forall id :: id in w.view.requests ==>
              exists k: nat :: LastAbout(w.hist, w.view.received, k, id)
                && w.hist[k].message == Request(id, true, w.view.requests[id])
  {
    StartInv(mode);
    BeginTallied(mode, ChaosState(EMPTY_ROOT, 1, 0), Store(EMPTY_ROOT, Log(Some(1), None, [], 0)));
    RunTallied(Start(mode, true), actions, w);
  }

  // ── Messages that are not in order ───────────────────────────────────────────────────────────

  /** A fresh page after any messages at all. */
  ghost function Heard(mode: Mode, messages: seq<Numbered>): View {
    if messages == [] then Fresh()
    else Receive(Heard(mode, messages[..|messages| - 1]), mode, messages[|messages| - 1]).view
  }

  lemma ReceiveChecks(u: View, mode: Mode, x: Numbered)
    ensures var v := Receive(u, mode, x).view;
      && v.received == x.n
      && (v.failure.None? <==> u.failure.None? && x.n == u.received + 1 && !x.message.Failure?)
  {
  }

  ghost predicate InOrder(messages: seq<Numbered>) {
    forall i :: 0 <= i < |messages| ==> messages[i].n == i + 1 && !messages[i].message.Failure?
  }

  lemma OrderGrows(front: seq<Numbered>, x: Numbered)
    ensures InOrder(front + [x]) <==> InOrder(front) && x.n == |front| + 1 && !x.message.Failure?
  {
    assert (front + [x])[|front|] == x;
    assert forall i :: 0 <= i < |front| ==> (front + [x])[i] == front[i];
  }

  /** A page has no failure exactly when the numbers it received run from 1 without a gap, a repeat or a swap, and
      no message was a failure. */
  lemma {:induction false} NoFailureIff(mode: Mode, messages: seq<Numbered>)
    ensures Heard(mode, messages).failure.None? <==>
      forall i :: 0 <= i < |messages| ==> messages[i].n == i + 1 && !messages[i].message.Failure?
    ensures Heard(mode, messages).received == if messages == [] then 0 else messages[|messages| - 1].n
  {
    if messages != [] {
      hide Receive;
      var n := |messages| - 1;
      NoFailureIff(mode, messages[..n]);
      ReceiveChecks(Heard(mode, messages[..n]), mode, messages[n]);
      assert messages == messages[..n] + [messages[n]];
      OrderGrows(messages[..n], messages[n]);
      assert InOrder(messages) <==> InOrder(messages[..n]) && messages[n].n == n + 1 && !messages[n].message.Failure?;
      assert n > 0 && InOrder(messages[..n]) ==> messages[n - 1].n == n;
    }
  }
}
