/** Every step of the kill campaign keeps the invariant, and an expectation the page judged on allows whatever
    a crash may leave of the store. */
module KillSafety {
  import opened Wrappers
  import opened ChaosTypes
  import opened ChaosStore
  import opened KillCampaign
  import opened KillInvariant

  // ── Every step keeps the invariant ───────────────────────────────────────────────────────────

  lemma BeginInv(mode: Mode, s: ChaosState, store: Store)
    requires Settles(s, store)
    ensures Inv(Begin(mode, true, s, store))
  {
    var w := Begin(mode, true, s, store);
    assert LatestAt(w.base, w.hist, 0) == s && LatestAt(w.base, w.hist, 1) == s;
    assert forall k: nat, x :: Says(w, k, x) ==> x == Recovered(s);
  }

  /** Steps that leave the history, the lanes and what the page recorded alone. */
  ghost predicate Still(w: World, v: World) {
    && v == w.(posted := v.posted, phase := v.phase, view := v.view, worker := v.worker)
    && v.worker == w.worker.(alive := v.worker.alive)
    && v.view == w.view.(hold := v.view.hold, armed := v.view.armed, faultArmed := v.view.faultArmed)
    && w.posted <= v.posted <= |w.hist|
    && (v.phase.Barrier? ==> v.phase.posted <= w.counter)
    && (v.phase.Judged? ==> Some(v.phase.told.state) == w.view.state && v.phase.told.inFlight == w.view.inFlight)
  }

  lemma StillSays(w: World, v: World)
    requires Still(w, v)
    ensures forall k: nat, x :: Says(v, k, x) <==> Says(w, k, x)
    ensures forall k: nat :: Fails(v, k) <==> Fails(w, k)
    ensures forall n :: 0 <= n <= |w.hist| ==> RootAt(v, n) == RootAt(w, n) && PointAt(v, n) == PointAt(w, n)
    ensures forall s: nat :: Live(v, s) <==> Live(w, s)
    ensures forall n, s: nat :: DoneBy(v, n, s) <==> DoneBy(w, n, s)
  {
    forall n, s: nat ensures DoneBy(v, n, s) <==> DoneBy(w, n, s) {
      if DoneBy(w, n, s) { var k: nat :| k < n && Says(w, k, Done(s)); assert Says(v, k, Done(s)); }
      if DoneBy(v, n, s) { var k: nat :| k < n && Says(v, k, Done(s)); assert Says(w, k, Done(s)); }
    }
  }

  lemma StillObserved(w: World, v: World)
    requires Numbering(w) && Observed(w) && Still(w, v)
    ensures Numbering(v) && Observed(v)
  {
    StillSays(w, v);
    if w.view.failure.Some? { var k: nat :| k < w.view.received && Fails(w, k); assert Fails(v, k); }
  }

  lemma StillBooked(w: World, v: World)
    requires Booked(w) && Lanes(w) && Gate(w) && Still(w, v)
    ensures Booked(v) && Lanes(v) && Gate(v)
  {
    StillSays(w, v);
    forall j: nat | j < |v.book| ensures Entered(v, j) { assert Entered(w, j); }
  }

  lemma StillRoot(w: World, v: World)
    requires RootInv(w) && Still(w, v)
    ensures RootInv(v)
  {
    StillSays(w, v);
  }

  lemma StillLog(w: World, v: World)
    requires LogInv(w) && Still(w, v)
    ensures LogInv(v)
  {
    StillSays(w, v);
  }

  // Posts, one part of the invariant at a time.

  lemma PostBook(w: World, p: Post)
    requires Numbering(w) && Booked(w) && Ready(w) && May(w, p)
    ensures Booked(WorkerStep(w, p))
  {
    hide Booked;
    PostShape(w, p);
    PostBooked(w, WorkerStep(w, p), MoveOf(w, p).message);
  }

  /** Which operations are live after a post. */
  lemma PostLive(w: World, p: Post)
    requires Lanes(w) && May(w, p)
    ensures var v, m := WorkerStep(w, p), MoveOf(w, p).message;
      && (forall s: nat :: Live(v, s) ==> Live(w, s) || (m.Announce? && s == m.intent.sequence))
      && (m.Done? ==> 1 <= m.sequence <= |w.book|)
  {
    hide Ended;
  }

  lemma PostTakesOut(w: World, p: Post)
    requires Lanes(w) && May(w, p)
    ensures MoveOf(w, p).message.Done? ==> !Live(WorkerStep(w, p), MoveOf(w, p).message.sequence)
  {
    hide Ended;
  }

  lemma PostLanes(w: World, p: Post)
    requires Numbering(w) && Lanes(w) && Ready(w) && May(w, p)
    ensures Lanes(WorkerStep(w, p))
  {
    hide Ended;
    PostLive(w, p);
    PostTakesOut(w, p);
    PostShape(w, p);
    PostEnds(w, WorkerStep(w, p), MoveOf(w, p).message);
  }

  lemma PostGo(w: World, p: Post)
    requires Numbering(w) && Observed(w) && Gate(w) && Ready(w) && May(w, p)
    ensures Observed(WorkerStep(w, p)) && Gate(WorkerStep(w, p))
  {
    hide Observed, Gate;
    PostShape(w, p);
    PostObserved(w, WorkerStep(w, p), MoveOf(w, p).message);
    PostGate(w, WorkerStep(w, p), MoveOf(w, p).message);
  }

  lemma PostRoot(w: World, p: Post)
    requires Numbering(w) && Observed(w) && Lanes(w) && Gate(w) && RootInv(w) && Ready(w) && May(w, p)
    ensures RootInv(WorkerStep(w, p))
  {
    hide RootInv, Observed, Gate, Ended;
    var v, m := WorkerStep(w, p), MoveOf(w, p).message;
    PostShape(w, p);
    match p {
      case AnnounceStep(_, root, _) => if root.Some? { RootAnnounce(w, v, m); } else { RootQuiet(w, v, m); }
      case BeginRoot => RootBegin(w, v, m, w.worker.root.intent);
      case AckRoot => RootAck(w, v, m, w.worker.root.intent);
      case DoneRoot => RootDone(w, v, m, w.worker.root.intent);
      case _ => RootQuiet(w, v, m);
    }
  }

  lemma LogTrackApart(w: World, s: nat)
    requires Lanes(w) && LogInv(w)
    requires (!w.worker.root.Idle? && w.worker.root.intent.sequence == s) || s in w.worker.others
    ensures w.logTrack.intent.Some? ==> s != w.logTrack.intent.value.sequence
  {
  }

  lemma PostLog(w: World, p: Post)
    requires Numbering(w) && Observed(w) && Lanes(w) && Gate(w) && LogInv(w) && Ready(w) && May(w, p)
    ensures LogInv(WorkerStep(w, p))
  {
    hide LogInv, Observed, Gate, Ended;
    var v, m := WorkerStep(w, p), MoveOf(w, p).message;
    PostShape(w, p);
    match p {
      case AnnounceStep(step, root, _) =>
        if root.None? && IsLog(step) { LogAnnounce(w, v, m); } else { LogQuiet(w, v, m); }
      case BeginLog => LogBegin(w, v, m, w.worker.log.intent);
      case AckLog => LogAck(w, v, m, w.worker.log.intent, w.worker.log.phase);
      case DoneLog => LogDone(w, v, m, w.worker.log.intent);
      case DoneRoot => LogTrackApart(w, m.sequence); LogQuiet(w, v, m);
      case DoneOther(s) => LogTrackApart(w, s); LogQuiet(w, v, m);
      case _ => LogQuiet(w, v, m);
    }
  }

  lemma PostKeeps(w: World, p: Post)
    requires Inv(w) && Ready(w) && May(w, p)
    ensures Inv(WorkerStep(w, p))
  {
    hide Numbering, Observed, Booked, Lanes, Gate, RootInv, LogInv, May, WorkerStep, MoveOf;
    PostShape(w, p);
    PostBook(w, p);
    PostLanes(w, p);
    PostGo(w, p);
    PostRoot(w, p);
    PostLog(w, p);
  }

  /** Storage work touches neither the history nor what the page has, and each lane's leaves the other's alone. */
  lemma PublishedInv(w: World)
    requires Inv(w) && Enabled(w, PublishEffect)
    ensures Inv(Published(w))
  {
    hide Observed, Booked, Gate, RootInv, LogInv;
    EffectPage(w, Published(w));
    PublishEffectKeeps(w);
    LogUntouched(w, Published(w));
  }

  lemma LoggedInv(w: World, appended: nat)
    requires Inv(w) && Enabled(w, LogEffect(appended))
    ensures Inv(Logged(w, appended))
  {
    hide Observed, Booked, Gate, RootInv, LogInv;
    EffectPage(w, Logged(w, appended));
    LogEffectKeeps(w, appended);
    RootUntouched(w, Logged(w, appended));
  }

  lemma EffectPage(w: World, v: World)
    requires Numbering(w) && Observed(w) && Booked(w) && Lanes(w) && Gate(w)
    requires v == w.(store := v.store, worker := v.worker)
    requires v.worker.claimed == w.worker.claimed && v.worker.others == w.worker.others
    requires v.worker.root == w.worker.root
        || (v.worker.root.Working? && w.worker.root.Working? && v.worker.root.intent == w.worker.root.intent)
    requires v.worker.log == w.worker.log
        || (v.worker.log.Working? && w.worker.log.Working? && v.worker.log.intent == w.worker.log.intent)
    ensures Numbering(v) && Observed(v) && Booked(v) && Lanes(v) && Gate(v)
  {
    assert forall k: nat, x :: Says(v, k, x) <==> Says(w, k, x);
    assert forall k: nat :: Fails(v, k) <==> Fails(w, k);
    assert forall s: nat :: Live(v, s) <==> Live(w, s);
    forall j: nat | j < |v.book| ensures Entered(v, j) { assert Entered(w, j); }
    assert v.view.failure.Some? <==> exists k: nat :: k < w.view.received && Fails(w, k);
    forall s: nat | DoneBy(w, w.view.received, s) ensures DoneBy(v, w.view.received, s) {
      var k: nat :| k < w.view.received && Says(w, k, Done(s));
      assert Says(v, k, Done(s));
    }
  }

  lemma RootUntouched(w: World, v: World)
    requires RootInv(w) && v == w.(store := v.store, worker := v.worker)
    requires v.store.root == w.store.root && v.worker.root == w.worker.root && v.worker.cur == w.worker.cur
    ensures RootInv(v)
  {
    assert forall n :: 0 <= n <= |w.hist| ==> RootAt(v, n) == RootAt(w, n);
    assert forall k: nat, x :: Says(v, k, x) <==> Says(w, k, x);
  }

  lemma LogUntouched(w: World, v: World)
    requires LogInv(w) && v == w.(store := v.store, worker := v.worker)
    requires v.store.log == w.store.log && v.worker.log == w.worker.log && v.worker.cur == w.worker.cur
    ensures LogInv(v)
  {
    assert forall n :: 0 <= n <= |w.hist| ==> PointAt(v, n) == PointAt(w, n);
    assert forall k: nat, x :: Says(v, k, x) <==> Says(w, k, x);
  }

  // ── Judging ──────────────────────────────────────────────────────────────────────────────────

  /** Whatever a crash leaves now or after any further storage work, the page's expectation allows it. */
  lemma JudgedIsAllowed(w: World, img: Image)
    requires Inv(w) && w.phase.Judged? && MayLeave(w.store, img)
    ensures Allowed(Some(w.phase.told), img)
  {
    RootAllowed(w);
    LogAllowed(w, img);
  }

  lemma RootAllowed(w: World)
    requires Observed(w) && RootInv(w) && w.view.state.Some?
    ensures w.store.root == w.view.state.value.root
            || exists x :: x in w.view.inFlight && x.root == Some(w.store.root)
  {
    assert w.view.state.value.root == RootAt(w, w.view.received);
  }

  /** Where the log stands against the acknowledgement the page has: at it, or at what one operation in
      flight makes of it. */
  ghost predicate Stands(log: Log, known: Point, inFlight: seq<Intent>, i: Intent, phase: nat, next: Point) {
    || Steady(log, known.generation, known.flushed)
    || (phase <= Phases(i.step) && Leads(i, known, next) && IsLog(i.step) && (i in inFlight || known == next)
        && (Steady(log, next.generation, next.flushed) || Underway(log, i, phase, known, next)))
  }

  lemma LogStands(w: World) returns (i: Intent, phase: nat)
    requires Observed(w) && LogInv(w) && w.view.state.Some?
    ensures Stands(w.store.log, PointOf(w.view.state.value), w.view.inFlight, i, phase, w.logTrack.next)
  {
    hide Steady, Underway, Leads;
    assert PointOf(w.view.state.value) == PointAt(w, w.view.received);
    i := if w.logTrack.intent.Some? then w.logTrack.intent.value else Intent(LogAppend, 0, None, None);
    phase := if w.worker.log.Working? then w.worker.log.phase else 0;
  }

  lemma StandingAllowed(s: Store, img: Image, known: ChaosState, inFlight: seq<Intent>, i: Intent, phase: nat,
      next: Point)
    requires Stands(s.log, PointOf(known), inFlight, i, phase, next) && MayLeave(s, img)
    ensures if exists x :: x in inFlight && x.step == Reset
      then img.header.None? || known.generation <= img.header.value <= known.generation + 1
      else img.header == Some(known.generation) && Reads(img.log, known.generation, Cut(known.flushed, inFlight))
  {
    var durable := s.log.durable;
    assert forall k :: 0 <= k < durable ==> img.log[k] == img.log[..durable][k] == s.log.bytes[..durable][k];
    if i in inFlight { var k :| 0 <= k < |inFlight| && inFlight[k] == i; }
  }

  lemma LogAllowed(w: World, img: Image)
    requires Observed(w) && LogInv(w) && w.view.state.Some? && MayLeave(w.store, img)
    ensures var known, inFlight := w.view.state.value, w.view.inFlight;
      if exists x :: x in inFlight && x.step == Reset
      then img.header.None? || known.generation <= img.header.value <= known.generation + 1
      else img.header == Some(known.generation) && Reads(img.log, known.generation, Cut(known.flushed, inFlight))
  {
    hide LogInv, Observed, Stands, MayLeave;
    var i, phase := LogStands(w);
    StandingAllowed(w.store, img, w.view.state.value, w.view.inFlight, i, phase, w.logTrack.next);
  }

  lemma DeliverLanes(w: World, v: World, m: Message)
    requires Lanes(w) && Delivery(w, v, m)
    ensures Lanes(v)
  {
    DeliverSays(w, v, m);
    assert forall s: nat :: Live(v, s) <==> Live(w, s);
  }

  lemma DeliverInv(w: World)
    requires Inv(w) && Enabled(w, Deliver)
    ensures Inv(Delivered(w))
  {
    hide Observed, Booked, Lanes, Gate, RootInv, LogInv;
    var v, m := Delivered(w), w.hist[w.view.received].message;
    DeliverShape(w);
    DeliverObserved(w, v, m);
    DeliverBooked(w, v, m);
    DeliverGate(w, v, m);
    DeliverRoot(w, v, m);
    DeliverLog(w, v, m);
    DeliverLanes(w, v, m);
  }

  lemma StillInv(w: World, v: World)
    requires Inv(w) && Still(w, v)
    ensures Inv(v)
  {
    hide Observed, Booked, Lanes, Gate, RootInv, LogInv, Still;
    StillObserved(w, v);
    StillBooked(w, v);
    StillRoot(w, v);
    StillLog(w, v);
  }

  lemma PlainStep(w: World, a: Action)
    requires Numbering(w) && Observed(w) && Enabled(w, a)
    requires a.Finish? || a.Die? || a.Prepare? || a.Kill? || a.Resolve? || a.TimeOut?
    ensures Still(w, Apply(w, a))
  {
  }

  lemma RestartedInv(w: World, img: Image)
    requires Inv(w) && w.phase.Judged? && MayLeave(w.store, img)
    ensures Inv(Restarted(w, img)) && Restarted(w, img).phase.Observing?
  {
    hide Numbering, Observed, Booked, Lanes, Gate, RootInv, LogInv, Recover, MayLeave, Inv;
    var told := Some(w.phase.told);
    JudgedIsAllowed(w, img);
    RecoverIff(told, img);
    RecoverSettles(told, img);
    BeginInv(w.mode, Recover(told, img).state, Recover(told, img).store);
    InvClaimsFirst(w);
  }

  lemma InvClaimsFirst(w: World) requires Inv(w) ensures w.claimFirst {}

  /** Every step keeps the invariant; a restart never refuses. */
  lemma StepInv(w: World, a: Action)
    requires Inv(w) && Enabled(w, a)
    ensures Inv(Apply(w, a))
    ensures a.Restart? ==> Apply(w, a).phase.Observing?
  {
    hide Numbering, Observed, Booked, Lanes, Gate, RootInv, LogInv, Recover, May, MoveOf, WorkerStep, Delivered,
        Published, Logged, Restarted, Still, MayLeave;
    match a {
      case Work(p) => PostKeeps(w, p);
      case Deliver => DeliverInv(w);
      case PublishEffect => PublishedInv(w);
      case LogEffect(appended) => LoggedInv(w, appended);
      case Restart(img) => RestartedInv(w, img);
      case _ => PlainStep(w, a); StillInv(w, Apply(w, a));
    }
  }
}
