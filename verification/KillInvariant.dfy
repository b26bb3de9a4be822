/** What every step of the kill campaign keeps. */
module KillInvariant {
  import opened Wrappers
  import opened ChaosTypes
  import opened ChaosStore
  import opened KillCampaign

  /** The state the last acknowledgement among the first `n` messages carries. */
  ghost function LatestAt(base: ChaosState, hist: seq<Numbered>, n: nat): ChaosState
    requires n <= |hist|
  {
    if n == 0 then base
    else
      match hist[n - 1].message
      case Ack(s) => s
      case Recovered(s) => s
      case _ => LatestAt(base, hist, n - 1)
  }

  ghost function RootAt(w: World, n: nat): Root requires n <= |w.hist| { LatestAt(w.base, w.hist, n).root }
  ghost function PointAt(w: World, n: nat): Point requires n <= |w.hist| { PointOf(LatestAt(w.base, w.hist, n)) }

  ghost predicate Says(w: World, k: nat, m: Message) { k < |w.hist| && w.hist[k].message == m }
  ghost predicate Fails(w: World, k: nat) { k < |w.hist| && w.hist[k].message.Failure? }

  ghost predicate DoneBy(w: World, n: nat, s: nat) {
    exists k: nat :: k < n && Says(w, k, Done(s))
  }

  /** Numbers are gap-free and the counter covers the channel. */
  ghost predicate Numbering(w: World) {
    && w.claimFirst
    && w.worker.claimed == w.counter == |w.hist|
    && w.posted <= |w.hist| <= w.posted + 1
    && forall k :: 0 <= k < |w.hist| ==> w.hist[k].n == k + 1
  }

  /** The page has exactly a prefix of the channel, in order, and its fields say what that prefix says. */
  ghost predicate Observed(w: World) {
    && w.view.received <= w.posted
    && w.posted <= |w.hist|
    && w.view.state == Some(LatestAt(w.base, w.hist, w.view.received))
    && (w.view.failure.Some? <==> exists k: nat :: k < w.view.received && Fails(w, k))
    && (w.phase.Barrier? ==> w.phase.posted <= w.counter)
    && (w.phase.Judged? ==> w.view.state == Some(w.phase.told.state) && w.view.inFlight == w.phase.told.inFlight)
  }

  ghost predicate Mine(w: World, i: Intent) { 1 <= i.sequence <= |w.book| && w.book[i.sequence - 1].intent == i }

  ghost predicate Entered(w: World, j: nat)
    requires j < |w.book|
  {
    w.book[j].intent.sequence == j + 1 && Says(w, w.book[j].at, Announce(w.book[j].intent))
  }

  /** Sequences are the positions in `book`; each is announced once. */
  ghost predicate Booked(w: World) {
    && (forall j: nat :: j < |w.book| ==> Entered(w, j))
    && (forall k: nat, i :: Says(w, k, Announce(i)) ==> Mine(w, i) && w.book[i.sequence - 1].at == k)
    && (forall x :: x in w.view.inFlight ==> Mine(w, x) && w.book[x.sequence - 1].at < w.view.received)
  }

  ghost predicate Live(w: World, s: nat) {
    || (!w.worker.root.Idle? && w.worker.root.intent.sequence == s)
    || (!w.worker.log.Idle? && w.worker.log.intent.sequence == s)
    || s in w.worker.others
  }

  /** Which operations each lane holds; a finished one is no longer live. */
  ghost predicate Lanes(w: World) {
    && (!w.worker.root.Idle? ==> Mine(w, w.worker.root.intent) && w.worker.root.intent.root.Some?)
    && (!w.worker.log.Idle? ==>
          && Mine(w, w.worker.log.intent) && w.worker.log.intent.root.None?
          && IsLog(w.worker.log.intent.step)
          && (w.worker.log.intent.truncateTo.Some? <==> w.worker.log.intent.step == StepKind.Truncate))
    && (forall s :: s in w.worker.others ==>
          && 1 <= s <= |w.book|
          && w.book[s - 1].intent.root.None? && !IsLog(w.book[s - 1].intent.step))
    && Ended(w)
  }

  ghost predicate Ended(w: World) {
    forall k: nat, s: nat :: Says(w, k, Done(s)) ==> 1 <= s <= |w.book| && !Live(w, s)
  }

  /** An operation with a go was recorded before it, and stays in flight until its end is received. */
  ghost predicate Gate(w: World) {
    && w.view.received <= |w.hist|
    && (forall s :: s in w.gos ==>
          1 <= s <= |w.book| && w.book[s - 1].at < w.view.received
          && (w.book[s - 1].intent in w.view.inFlight || DoneBy(w, w.view.received, s)))
    && (forall k: nat, s: nat :: Says(w, k, Message.Began(s)) ==> s in w.gos)
  }

  /** Root acknowledgements, seen from the history: the page already has everything before the operation
      that last began; from there on only that operation's own acknowledgement can be missing. */
  ghost predicate RootRange(w: World, t: Track<Root>) {
    && t.mark <= w.view.received <= |w.hist|
    && (forall n :: t.mark <= n <= |w.hist| ==> RootAt(w, n) == t.prev || RootAt(w, n) == t.next)
    && (forall n, m :: t.mark <= n <= m <= |w.hist| && RootAt(w, n) == t.next ==> RootAt(w, m) == t.next)
    && (t.intent.Some? ==>
          && Mine(w, t.intent.value)
          && t.intent.value.root == Some(t.next)
          && (forall k: nat :: Says(w, k, Done(t.intent.value.sequence)) ==>
                t.mark <= k < |w.hist| && RootAt(w, k) == t.next)
          && (t.intent.value in w.view.inFlight || RootAt(w, w.view.received) == t.next))
    && (t.intent.None? ==> t.prev == t.next)
  }

  ghost predicate RootLane(w: World, t: Track<Root>)
    requires RootRange(w, t)
  {
    match w.worker.root
    case Idle => w.worker.cur.root == w.store.root == t.next == RootAt(w, |w.hist|)
    case Waiting(i) =>
      && w.worker.cur.root == w.store.root == t.next
      && 1 <= i.sequence <= |w.book| && w.book[i.sequence - 1].at < |w.hist|
      && forall n :: w.book[i.sequence - 1].at <= n <= |w.hist| ==> RootAt(w, n) == t.next
    case Working(i, phase) =>
      && t.intent == Some(i) && w.worker.cur.root == t.prev
      && w.store.root == (if phase == 0 then t.prev else t.next)
      && forall n :: t.mark <= n <= |w.hist| ==> RootAt(w, n) == t.prev
    case Acked(i) => w.worker.cur.root == w.store.root == t.next == RootAt(w, |w.hist|) && t.intent == Some(i)
  }

  ghost predicate RootInv(w: World) { RootRange(w, w.rootTrack) && RootLane(w, w.rootTrack) }

  ghost predicate PointRange(w: World, t: Track<Point>) {
    && t.mark <= w.view.received <= |w.hist|
    && (forall n :: t.mark <= n <= |w.hist| ==> PointAt(w, n) == t.prev || PointAt(w, n) == t.next)
    && (forall n, m :: t.mark <= n <= m <= |w.hist| && PointAt(w, n) == t.next ==> PointAt(w, m) == t.next)
    && (t.intent.Some? ==>
          && Mine(w, t.intent.value)
          && IsLog(t.intent.value.step) && t.intent.value.root.None?
          && Leads(t.intent.value, t.prev, t.next)
          && (forall k: nat :: Says(w, k, Done(t.intent.value.sequence)) ==>
                t.mark <= k < |w.hist| && PointAt(w, k) == t.next)
          && (t.intent.value in w.view.inFlight || PointAt(w, w.view.received) == t.next))
    && (t.intent.None? ==> t.prev == t.next)
  }

  /** How an operation's acknowledgement follows from the one before it. */
  ghost predicate Leads(i: Intent, prev: Point, next: Point) {
    match i.step
    case LogFlush => next.generation == prev.generation && prev.flushed <= next.flushed
    case Truncate => next.generation == prev.generation && i.truncateTo.Some?
                     && next.flushed == if i.truncateTo.value < prev.flushed then i.truncateTo.value else prev.flushed
    case Reset => next == Point(prev.generation + 1, 0)
    case _ => next == prev
  }

  /** The log while an operation's storage work is under way. */
  ghost predicate Underway(log: Log, i: Intent, phase: nat, prev: Point, next: Point) {
    match i.step
    case LogFlush =>
      Steady(log, prev.generation, if phase == 0 then prev.flushed else next.flushed) && next.flushed == |log.bytes|
    case Truncate =>
      Steady(log, prev.generation, if phase == 0 then prev.flushed else next.flushed)
    case Reset =>
      && (phase == 0 ==> Steady(log, prev.generation, prev.flushed))
      && (0 < phase <= 3 ==> log.header == Some(prev.generation) && log.durable == 0)
      && (phase == 2 || phase == 3 ==> log.bytes == [])
      && (phase == 1 || phase == 2 ==> log.staged == None)
      && (phase == 3 ==> log.staged == Some(prev.generation + 1))
      && (phase >= 4 ==> log == Log(Some(prev.generation + 1), None, [], 0))
    case _ => Steady(log, prev.generation, prev.flushed)
  }

  ghost predicate LogLane(w: World, t: Track<Point>)
    requires PointRange(w, t)
  {
    match w.worker.log
    case Idle => PointOf(w.worker.cur) == t.next == PointAt(w, |w.hist|)
        && Steady(w.store.log, t.next.generation, t.next.flushed)
    case Waiting(i) =>
      && PointOf(w.worker.cur) == t.next && Steady(w.store.log, t.next.generation, t.next.flushed)
      && 1 <= i.sequence <= |w.book| && w.book[i.sequence - 1].at < |w.hist|
      && (forall n :: w.book[i.sequence - 1].at <= n <= |w.hist| ==> PointAt(w, n) == t.next)
      && (i.truncateTo.Some? ==> i.truncateTo.value <= |w.store.log.bytes|)
    case Working(i, phase) =>
      && t.intent == Some(i) && PointOf(w.worker.cur) == t.prev && phase <= Phases(i.step)
      && (i.truncateTo.Some? ==> i.truncateTo.value <= |w.store.log.bytes|)
      && Underway(w.store.log, i, phase, t.prev, t.next)
      && forall n :: t.mark <= n <= |w.hist| ==> PointAt(w, n) == t.prev
    case Acked(i) =>
      && PointOf(w.worker.cur) == t.next == PointAt(w, |w.hist|) && t.intent == Some(i)
      && Steady(w.store.log, t.next.generation, t.next.flushed)
  }

  ghost predicate LogInv(w: World) { PointRange(w, w.logTrack) && LogLane(w, w.logTrack) }

  ghost predicate Inv(w: World) {
    && Numbering(w) && Observed(w) && Booked(w) && Lanes(w) && Gate(w) && RootInv(w) && LogInv(w)
  }

  // ── Claiming a message ───────────────────────────────────────────────────────────────────────

  lemma {:induction false} LatestPrefix(base: ChaosState, hist: seq<Numbered>, more: Numbered, n: nat)
    requires n <= |hist|
    ensures LatestAt(base, hist + [more], n) == LatestAt(base, hist, n)
  {
    if n > 0 { LatestPrefix(base, hist, more, n - 1); }
  }

  /** Everything the history says is kept when a message is claimed. */
  lemma Claimed(w: World, v: World, m: Message)
    requires v.base == w.base && v.hist == w.hist + [Numbered(|w.hist| + 1, m)]
    ensures forall n :: 0 <= n <= |w.hist| ==> LatestAt(v.base, v.hist, n) == LatestAt(w.base, w.hist, n)
    ensures forall n :: 0 <= n <= |w.hist| ==> RootAt(v, n) == RootAt(w, n) && PointAt(v, n) == PointAt(w, n)
    ensures !m.Ack? && !m.Recovered? ==>
              RootAt(v, |v.hist|) == RootAt(w, |w.hist|) && PointAt(v, |v.hist|) == PointAt(w, |w.hist|)
    ensures m.Ack? ==> RootAt(v, |v.hist|) == m.state.root && PointAt(v, |v.hist|) == PointOf(m.state)
    ensures forall k: nat, x :: Says(v, k, x) <==> Says(w, k, x) || (k == |w.hist| && x == m)
    ensures forall k: nat :: Fails(v, k) <==> Fails(w, k) || (k == |w.hist| && m.Failure?)
  {
    forall n | 0 <= n <= |w.hist| ensures LatestAt(v.base, v.hist, n) == LatestAt(w.base, w.hist, n) {
      LatestPrefix(w.base, w.hist, Numbered(|w.hist| + 1, m), n);
    }
  }

  /** What posting `m` changes besides the worker's own fields. */
  ghost predicate Posting(w: World, v: World, m: Message) {
    && v.hist == w.hist + [Numbered(|w.hist| + 1, m)]
    && v.view == w.view && v.gos == w.gos && v.phase == w.phase && v.base == w.base && v.store == w.store
    && v.posted == w.posted == |w.hist| && v.counter == w.counter + 1
    && v.book == (if m.Announce? then w.book + [Entry(m.intent, |w.hist|)] else w.book)
    && (m.Announce? ==> m.intent.sequence == |w.book| + 1)
  }

  lemma PostShape(w: World, p: Post)
    requires Numbering(w) && Ready(w) && May(w, p)
    ensures Posting(w, WorkerStep(w, p), MoveOf(w, p).message) && Numbering(WorkerStep(w, p))
  {
  }

  lemma PostObserved(w: World, v: World, m: Message)
    requires Observed(w) && Posting(w, v, m)
    ensures Observed(v)
  {
    Claimed(w, v, m);
  }

  lemma PostBooked(w: World, v: World, m: Message)
    requires Booked(w) && Posting(w, v, m)
    ensures Booked(v)
  {
    Claimed(w, v, m);
    forall j: nat | j < |v.book| ensures Entered(v, j) {
      if j < |w.book| { assert Entered(w, j); }
    }
  }

  /** No post revives an operation that ended, and an end takes its operation out of its lane. */
  lemma PostEnds(w: World, v: World, m: Message)
    requires Lanes(w) && Posting(w, v, m)
    requires forall s: nat :: Live(v, s) ==> Live(w, s) || (m.Announce? && s == m.intent.sequence)
    requires m.Done? ==> !Live(v, m.sequence) && 1 <= m.sequence <= |w.book|
    ensures Ended(v)
  {
    Claimed(w, v, m);
    forall k: nat, s: nat | Says(v, k, Done(s)) ensures 1 <= s <= |v.book| && !Live(v, s) {
      if Says(w, k, Done(s)) { assert s <= |w.book| && !Live(w, s); }
    }
  }

  lemma PostGate(w: World, v: World, m: Message)
    requires Observed(w) && Gate(w) && Posting(w, v, m)
    requires m.Began? ==> m.sequence in w.gos
    ensures Gate(v)
  {
    Claimed(w, v, m);
    forall s | s in v.gos && DoneBy(w, w.view.received, s) ensures DoneBy(v, v.view.received, s) {
      var k :| 0 <= k < w.view.received && Says(w, k, Done(s));
      assert Says(v, k, Done(s));
    }
  }

  // ── The root lane ────────────────────────────────────────────────────────────────────────────

  /** A post that leaves the root lane alone: another lane's, or a log acknowledgement. */
  lemma RootQuiet(w: World, v: World, m: Message)
    requires Observed(w) && Lanes(w) && RootInv(w) && Posting(w, v, m)
    requires v.worker.root == w.worker.root && v.worker.cur.root == w.worker.cur.root && v.rootTrack == w.rootTrack
    requires !m.Recovered? && (m.Ack? ==> m.state.root == w.worker.cur.root)
    requires m.Done? ==> 1 <= m.sequence <= |w.book| && w.book[m.sequence - 1].intent.root.None?
    ensures RootInv(v)
  {
    Claimed(w, v, m);
    assert RootAt(w, |w.hist|) == w.worker.cur.root;
    assert RootAt(v, |v.hist|) == w.worker.cur.root;
  }

  lemma RootAnnounce(w: World, v: World, m: Message)
    requires Observed(w) && Lanes(w) && RootInv(w) && Posting(w, v, m) && w.worker.root.Idle? && m.Announce?
    requires v.worker.root == Waiting(m.intent) && v.worker.cur == w.worker.cur && v.rootTrack == w.rootTrack
    ensures RootInv(v)
  {
    Claimed(w, v, m);
  }

  lemma RootBegin(w: World, v: World, m: Message, i: Intent)
    requires Observed(w) && Lanes(w) && Gate(w) && RootInv(w) && Posting(w, v, m) && m.Began?
    requires w.worker.root == Waiting(i) && i.sequence in w.gos && i.root.Some?
    requires v.worker.root == Working(i, 0) && v.worker.cur == w.worker.cur
    requires v.rootTrack == Track(MarkOf(w.book, i), Some(i), w.worker.cur.root, i.root.value)
    ensures RootInv(v)
  {
    Claimed(w, v, m);
    assert Live(w, i.sequence);
  }

  lemma RootAck(w: World, v: World, m: Message, i: Intent)
    requires Observed(w) && Lanes(w) && RootInv(w) && Posting(w, v, m) && m.Ack?
    requires w.worker.root == Working(i, 1) && v.worker.root == Acked(i)
    requires v.worker.cur == m.state && Some(m.state.root) == i.root && v.rootTrack == w.rootTrack
    ensures RootInv(v)
  {
    Claimed(w, v, m);
    assert Live(w, i.sequence);
  }

  lemma RootDone(w: World, v: World, m: Message, i: Intent)
    requires Observed(w) && Lanes(w) && RootInv(w) && Posting(w, v, m) && m == Done(i.sequence)
    requires w.worker.root == Acked(i) && v.worker.root == Idle
    requires v.worker.cur == w.worker.cur && v.rootTrack == w.rootTrack
    ensures RootInv(v)
  {
    Claimed(w, v, m);
  }

  // ── The log lane ─────────────────────────────────────────────────────────────────────────────

  lemma LogQuiet(w: World, v: World, m: Message)
    requires Observed(w) && Lanes(w) && LogInv(w) && Posting(w, v, m)
    requires v.worker.log == w.worker.log && PointOf(v.worker.cur) == PointOf(w.worker.cur) && v.logTrack == w.logTrack
    requires !m.Recovered? && (m.Ack? ==> PointOf(m.state) == PointOf(w.worker.cur))
    requires m.Done? && w.logTrack.intent.Some? ==> m.sequence != w.logTrack.intent.value.sequence
    ensures LogInv(v)
  {
    Claimed(w, v, m);
    assert PointAt(w, |w.hist|) == PointOf(w.worker.cur);
    assert PointAt(v, |v.hist|) == PointOf(w.worker.cur);
  }

  lemma LogAnnounce(w: World, v: World, m: Message)
    requires Observed(w) && Lanes(w) && LogInv(w) && Posting(w, v, m) && w.worker.log.Idle? && m.Announce?
    requires v.worker.log == Waiting(m.intent) && v.worker.cur == w.worker.cur && v.logTrack == w.logTrack
    requires m.intent.truncateTo.Some? ==> m.intent.truncateTo.value <= |w.store.log.bytes|
    ensures LogInv(v)
  {
    Claimed(w, v, m);
  }

  lemma LogBegin(w: World, v: World, m: Message, i: Intent)
    requires Observed(w) && Lanes(w) && Gate(w) && LogInv(w) && Posting(w, v, m) && m.Began?
    requires w.worker.log == Waiting(i) && i.sequence in w.gos
    requires v.worker.log == Working(i, 0) && v.worker.cur == w.worker.cur
    requires v.logTrack == Track(MarkOf(w.book, i), Some(i), PointOf(w.worker.cur),
                                 Target(i, PointOf(w.worker.cur), w.store.log))
    ensures LogInv(v)
  {
    Claimed(w, v, m);
    assert Live(w, i.sequence);
  }

  lemma LogAck(w: World, v: World, m: Message, i: Intent, phase: nat)
    requires Observed(w) && Lanes(w) && LogInv(w) && Posting(w, v, m) && m.Ack?
    requires w.worker.log == Working(i, phase) && phase == Phases(i.step) && i.step != LogAppend
    requires v.worker.log == Acked(i) && v.worker.cur == m.state && v.logTrack == w.logTrack
    requires PointOf(m.state) == Target(i, PointOf(w.worker.cur), w.store.log)
    ensures LogInv(v)
  {
    Claimed(w, v, m);
    assert Live(w, i.sequence);
    assert PointOf(m.state) == w.logTrack.next;
  }

  lemma LogDone(w: World, v: World, m: Message, i: Intent)
    requires Observed(w) && Lanes(w) && LogInv(w) && Posting(w, v, m) && m == Done(i.sequence)
    requires w.worker.log == Acked(i) || (w.worker.log.Working? && w.worker.log.intent == i && i.step == LogAppend)
    requires v.worker.log == Idle && v.worker.cur == w.worker.cur && v.logTrack == w.logTrack
    ensures LogInv(v)
  {
    Claimed(w, v, m);
    assert PointAt(w, |w.hist|) == PointOf(w.worker.cur);
  }

  /** Storage work, which may finish after the worker is gone. */
  lemma WorkKeeps(log: Log, cur: ChaosState, i: Intent, phase: nat, appended: nat, next: Point)
    requires Underway(log, i, phase, PointOf(cur), next) && Leads(i, PointOf(cur), next) && IsLog(i.step)
    requires i.step == LogAppend || phase < Phases(i.step)
    requires i.truncateTo.Some? <==> i.step == StepKind.Truncate
    requires i.truncateTo.Some? && phase == 0 ==> i.truncateTo.value <= |log.bytes|
    requires i.truncateTo.Some? && phase == 1 ==> i.truncateTo.value <= |log.bytes|
    ensures Underway(LogWork(log, cur, i, phase, appended), i, if i.step == LogAppend then phase
        else phase + 1, PointOf(cur), next)
    ensures i.truncateTo.Some? ==> i.truncateTo.value <= |LogWork(log, cur, i, phase, appended).bytes|
  {
  }

  lemma LogEffectKeeps(w: World, appended: nat)
    requires Lanes(w) && LogInv(w) && Enabled(w, LogEffect(appended))
    ensures LogInv(Logged(w, appended))
  {
    hide Underway, LogWork, Leads, Steady;
    var v := Logged(w, appended);
    WorkKeeps(w.store.log, w.worker.cur, w.worker.log.intent, w.worker.log.phase, appended, w.logTrack.next);
    assert forall k: nat, x :: Says(v, k, x) <==> Says(w, k, x);
    assert forall n :: 0 <= n <= |w.hist| ==> PointAt(v, n) == PointAt(w, n);
  }

  lemma PublishEffectKeeps(w: World)
    requires Lanes(w) && RootInv(w) && Enabled(w, PublishEffect)
    ensures RootInv(Published(w))
  {
    var v := Published(w);
    assert forall k: nat, x :: Says(v, k, x) <==> Says(w, k, x);
    assert forall n :: 0 <= n <= |w.hist| ==> RootAt(v, n) == RootAt(w, n);
  }

  // ── Delivery ─────────────────────────────────────────────────────────────────────────────────

  /** What delivering the next message changes. */
  ghost predicate Delivery(w: World, v: World, m: Message) {
    && v == w.(view := v.view, gos := v.gos)
    && w.view.received < |w.hist| && m == w.hist[w.view.received].message
    && v.view.received == w.view.received + 1
    && v.view.state == (match m case Ack(s) => Some(s) case Recovered(s) => Some(s) case _ => w.view.state)
    && (v.view.failure.Some? <==> w.view.failure.Some? || m.Failure?)
    && (forall i :: i in v.view.inFlight ==> i in w.view.inFlight || m == Announce(i))
    && (forall i :: i in w.view.inFlight && m != Done(i.sequence) ==>
          i in v.view.inFlight || (m.Announce? && m.intent.sequence == i.sequence && m.intent in v.view.inFlight))
    && (forall s :: s in v.gos ==> s in w.gos || (m.Announce? && m.intent.sequence == s && m.intent in v.view.inFlight))
    && w.gos <= v.gos
  }

  lemma DeliverShape(w: World)
    requires Numbering(w) && w.view.received < |w.hist|
    ensures Delivery(w, Delivered(w), w.hist[w.view.received].message)
  {
  }

  lemma DeliverSays(w: World, v: World, m: Message)
    requires Delivery(w, v, m)
    ensures forall k: nat, x :: Says(v, k, x) <==> Says(w, k, x)
    ensures forall k: nat :: Fails(v, k) <==> Fails(w, k)
    ensures Says(v, w.view.received, m)
    ensures forall n :: 0 <= n <= |w.hist| ==> RootAt(v, n) == RootAt(w, n) && PointAt(v, n) == PointAt(w, n)
  {
  }

  lemma DeliverObserved(w: World, v: World, m: Message)
    requires Observed(w) && w.view.received < w.posted && !w.phase.Judged? && Delivery(w, v, m)
    ensures Observed(v)
  {
    DeliverSays(w, v, m);
    if v.view.failure.Some? && w.view.failure.None? { assert Fails(v, w.view.received); }
    if w.view.failure.Some? { var k: nat :| k < w.view.received && Fails(w, k); assert Fails(v, k); }
  }

  lemma DeliverBooked(w: World, v: World, m: Message)
    requires Booked(w) && Delivery(w, v, m)
    ensures Booked(v)
  {
    DeliverSays(w, v, m);
    forall j: nat | j < |v.book| ensures Entered(v, j) { assert Entered(w, j); }
  }

  lemma DeliverGate(w: World, v: World, m: Message)
    requires Booked(w) && Gate(w) && Delivery(w, v, m)
    ensures Gate(v)
  {
    var r := w.view.received;
    DeliverSays(w, v, m);
    forall s | s in v.gos
      ensures 1 <= s <= |v.book| && v.book[s - 1].at < r + 1
      ensures v.book[s - 1].intent in v.view.inFlight || DoneBy(v, r + 1, s)
    {
      if s in w.gos {
        var i := w.book[s - 1].intent;
        assert Entered(w, s - 1);
        if DoneBy(w, r, s) {
          var k: nat :| k < r && Says(w, k, Done(s));
          assert Says(v, k, Done(s));
        } else if m == Done(i.sequence) {
          assert Says(v, r, Done(s));
        }
      }
    }
  }

  lemma DeliverRoot(w: World, v: World, m: Message)
    requires Booked(w) && RootInv(w) && Delivery(w, v, m)
    ensures RootInv(v)
  {
    DeliverSays(w, v, m);
    var r := w.view.received;
    assert RootAt(w, r) == w.rootTrack.next ==> RootAt(w, r + 1) == w.rootTrack.next;
  }

  lemma DeliverLog(w: World, v: World, m: Message)
    requires Booked(w) && LogInv(w) && Delivery(w, v, m)
    ensures LogInv(v)
  {
    DeliverSays(w, v, m);
    var r := w.view.received;
    assert PointAt(w, r) == w.logTrack.next ==> PointAt(w, r + 1) == w.logTrack.next;
  }
}
