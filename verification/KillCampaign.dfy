/** The kill campaign as a transition system: a worker that claims, posts and works, the channel it posts
    on, the page that receives, answers, kills and judges, and the store they share. Any interleaving, a
    kill at any instant, any number of runs (packages/core/browser/next-storage-run.ts,
    packages/core/browser/next-storage-worker.ts, packages/core/src/next/spill/chaos-workload.ts). */
module KillCampaign {
  import opened Wrappers
  import opened ChaosTypes
  import opened ChaosStore

  /** An operation of one lane: announced, working (with how much of its storage work has run), acknowledged. */
  datatype Lane = Idle | Waiting(intent: Intent) | Working(intent: Intent, phase: nat) | Acked(intent: Intent)

  /** `cur` is the workload's `state`; each of the two lanes, root and log, holds one operation. */
  datatype Worker = Worker(alive: bool, cur: ChaosState, claimed: nat, root: Lane, log: Lane, others: map<nat, bool>)

  datatype Phase = Observing | Barrier(posted: nat) | Judged(told: Expectation) | Refused(reason: string)

  /** An announced intent and where in the history it was claimed. */
  datatype Entry = Entry(intent: Intent, at: nat)

  datatype Point = Point(generation: nat, flushed: nat)

  /** History of one lane: its latest operation that began, what was acknowledged before it, what it acknowledges. */
  datatype Track<V> = Track(mark: nat, intent: Option<Intent>, prev: V, next: V)

  /** `hist` is every claimed message, `posted` how many of them are on the channel. `book`, `rootTrack`
      and `logTrack` only record history: no step reads them. */
  datatype World = World(
    mode: Mode,
    claimFirst: bool,
    worker: Worker,
    hist: seq<Numbered>,
    posted: nat,
    counter: nat,
    gos: set<nat>,
    view: View,
    phase: Phase,
    store: Store,
    base: ChaosState,
    book: seq<Entry>,
    rootTrack: Track<Root>,
    logTrack: Track<Point>)

  /** A step of the worker's own thread: it claims one message. */
  datatype Post =
    | AnnounceStep(step: StepKind, root: Option<Root>, truncateTo: Option<nat>)
    | BeginRoot | AckRoot | DoneRoot
    | BeginLog | AckLog | DoneLog
    | BeginOther(sequence: nat) | DoneOther(sequence: nat)
    | Say(message: Message)

  datatype Action =
    | Work(post: Post)
    | Finish
    | PublishEffect
    | LogEffect(appended: nat)
    | Die
    | Deliver
    | Prepare(hold: bool, armed: Option<Armed>, faultArmed: bool)
    | Kill
    | Resolve
    | TimeOut
    | Restart(img: Image)

  function PointOf(s: ChaosState): Point { Point(s.generation, s.flushed) }

  /** A fresh run that recovered to `s`: its first message has been received. */
  function Begin(mode: Mode, claimFirst: bool, s: ChaosState, store: Store): World {
    World(mode, claimFirst, Worker(true, s, 1, Idle, Idle, map[]), [Numbered(1, Recovered(s))], 1, 1, {},
          Fresh().(received := 1, state := Some(s)), Observing, store, s, [],
          Track(0, None, s.root, s.root), Track(0, None, PointOf(s), PointOf(s)))
  }

  // ── The worker ───────────────────────────────────────────────────────────────────────────────

  /** One thread: nothing else runs between a claim and its post. */
  predicate Ready(w: World) {
    w.worker.alive && w.posted == |w.hist| && w.counter == w.worker.claimed
  }

  predicate IsLog(step: StepKind) { step in {LogAppend, LogFlush, StepKind.Truncate, Reset} }

  predicate Busy(worker: Worker) { !worker.root.Idle? || !worker.log.Idle? || |worker.others| > 0 }

  /** Storage work a log operation makes before it returns. */
  function Phases(step: StepKind): nat {
    match step
    case LogFlush => 1
    case Truncate => 2
    case Reset => 4
    case _ => 0
  }

  /** One step of a log operation's storage work. A truncate or a reset passes through states in which the
      bytes it drops are already undetermined. */
  function LogWork(log: Log, cur: ChaosState, i: Intent, phase: nat, appended: nat): Log {
    match i.step
    case LogAppend => log.(bytes := log.bytes + LogBytes(cur.generation, |log.bytes|, appended))
    case LogFlush => Log(if log.staged.Some? then log.staged else log.header, None, log.bytes, |log.bytes|)
    case Truncate =>
      var to := if i.truncateTo.Some? && i.truncateTo.value <= |log.bytes| then i.truncateTo.value else |log.bytes|;
      var durable := if to < log.durable then to else log.durable;
      if phase == 0 then log.(durable := durable) else log.(bytes := log.bytes[..to], durable := durable)
    case Reset =>
      if phase == 0 then log.(durable := 0)
      else if phase == 1 then log.(bytes := [])
      else if phase == 2 then log.(staged := Some(cur.generation + 1))
      else Log(if log.staged.Some? then log.staged else log.header, None, log.bytes, |log.bytes|)
    case _ => log
  }

  /** What a log operation acknowledges, given the log it began on. */
  function Target(i: Intent, from: Point, log: Log): Point {
    match i.step
    case LogFlush => from.(flushed := |log.bytes|)
    case Truncate => if i.truncateTo.Some? && i.truncateTo.value < from.flushed
        then from.(flushed := i.truncateTo.value) else from
    case Reset => Point(from.generation + 1, 0)
    case _ => from
  }

  /** Whether the workload may take this step now. */
  predicate May(w: World, p: Post) {
    var x := w.worker;
    match p
    case AnnounceStep(step, root, truncateTo) =>
      && (w.mode == Serial ==> !Busy(x))
      && (step == Publish ==> root.Some?)
      && (root.Some? ==> step in {Publish, Reclaim} && x.root.Idle?)
      && (IsLog(step) ==> x.log.Idle?)
      && (truncateTo.Some? <==> step == StepKind.Truncate)
      && (truncateTo.Some? ==> truncateTo.value <= |w.store.log.bytes|)
    case BeginRoot => x.root.Waiting? && x.root.intent.sequence in w.gos
    case AckRoot => x.root.Working? && x.root.phase == 1
    case DoneRoot => x.root.Acked?
    case BeginLog => x.log.Waiting? && x.log.intent.sequence in w.gos
    case AckLog => x.log.Working? && x.log.intent.step != LogAppend && x.log.phase == Phases(x.log.intent.step)
    case DoneLog => x.log.Acked? || (x.log.Working? && x.log.intent.step == LogAppend)
    case BeginOther(s) => s in x.others && !x.others[s] && s in w.gos
    case DoneOther(s) => s in x.others && x.others[s]
    case Say(m) => m.Settled? || m.Request? || m.Failure? || m.Injecting?
  }

  /** The worker after a step, the message it posts, and the lanes' history. */
  datatype Move = Move(worker: Worker, message: Message, rootTrack: Track<Root>, logTrack: Track<Point>)

  function MarkOf(book: seq<Entry>, i: Intent): nat {
    if 1 <= i.sequence <= |book| then book[i.sequence - 1].at + 1 else 0
  }

  function MoveOf(w: World, p: Post): Move
    requires May(w, p)
  {
    var x, rt, lt := w.worker, w.rootTrack, w.logTrack;
    match p
    case AnnounceStep(step, root, truncateTo) =>
      var i := Intent(step, |w.book| + 1, root, truncateTo);
      Move(if root.Some? then x.(root := Waiting(i)) else if IsLog(step) then x.(log := Waiting(i))
           else x.(others := x.others[i.sequence := false]), Announce(i), rt, lt)
    case BeginRoot =>
      var i := x.root.intent;
      var next := if i.root.Some? then i.root.value else x.cur.root;
      Move(x.(root := Working(i, 0)), Message.Began(i.sequence), Track(MarkOf(w.book, i), Some(i), x.cur.root, next),
          lt)
    case AckRoot =>
      var i := x.root.intent;
      var cur := x.cur.(root := if i.root.Some? then i.root.value else x.cur.root);
      Move(x.(root := Acked(i), cur := cur), Ack(cur), rt, lt)
    case DoneRoot => Move(x.(root := Idle), Done(x.root.intent.sequence), rt, lt)
    case BeginLog =>
      var i := x.log.intent;
      Move(x.(log := Working(i, 0)), Message.Began(i.sequence), rt,
           Track(MarkOf(w.book, i), Some(i), PointOf(x.cur), Target(i, PointOf(x.cur), w.store.log)))
    case AckLog =>
      var i := x.log.intent;
      var to := Target(i, PointOf(x.cur), w.store.log);
      var cur := x.cur.(generation := to.generation, flushed := to.flushed);
      Move(x.(log := Acked(i), cur := cur), Ack(cur), rt, lt)
    case DoneLog => Move(x.(log := Idle), Done(x.log.intent.sequence), rt, lt)
    case BeginOther(s) => Move(x.(others := x.others[s := true]), Message.Began(s), rt, lt)
    case DoneOther(s) => Move(x.(others := x.others - {s}), Done(s), rt, lt)
    case Say(m) => Move(x, m, rt, lt)
  }

  /** The first half of a post: claim, then (`Finish`) hand over; or the other way round. */
  function WorkerStep(w: World, p: Post): World
    requires May(w, p)
  {
    var m := MoveOf(w, p);
    var n := w.worker.claimed + 1;
    var v := w.(worker := m.worker.(claimed := n), hist := w.hist + [Numbered(n, m.message)],
                book := if m.message.Announce? then w.book + [Entry(m.message.intent, |w.hist|)] else w.book,
                rootTrack := m.rootTrack, logTrack := m.logTrack);
    if w.claimFirst then v.(counter := n) else v.(posted := w.posted + 1)
  }

  // ── The whole ────────────────────────────────────────────────────────────────────────────────

  ghost predicate Enabled(w: World, a: Action) {
    match a
    case Work(p) => Ready(w) && May(w, p)
    case Finish => w.worker.alive && !Ready(w)
    // Storage work in flight may still take effect after the worker is gone.
    case PublishEffect => w.worker.root.Working? && w.worker.root.phase == 0
    case LogEffect(_) => w.worker.log.Working?
        && (w.worker.log.intent.step == LogAppend || w.worker.log.phase < Phases(w.worker.log.intent.step))
    case Die => w.worker.alive
    case Deliver => (w.phase.Observing? || w.phase.Barrier?) && w.view.received < w.posted && w.posted <= |w.hist|
    case Prepare(_, _, _) => w.phase.Observing?
    case Kill => w.phase.Observing?
    case Resolve => w.phase.Barrier? && w.view.received >= w.phase.posted && w.view.state.Some?
    case TimeOut => w.phase.Barrier? && w.view.received < w.phase.posted
    case Restart(img) => w.phase.Judged? && MayLeave(w.store, img)
  }

  function Delivered(w: World): World
    requires w.view.received < |w.hist|
  {
    var r := Receive(w.view, w.mode, w.hist[w.view.received]);
    w.(view := r.view, gos := w.gos + (if r.go.Some? then {r.go.value} else {}))
  }

  function Published(w: World): World
    requires w.worker.root.Working?
  {
    var i := w.worker.root.intent;
    w.(store := w.store.(root := if i.root.Some? then i.root.value else w.store.root),
       worker := w.worker.(root := Working(i, 1)))
  }

  function Logged(w: World, appended: nat): World
    requires w.worker.log.Working?
  {
    var i, phase := w.worker.log.intent, w.worker.log.phase;
    w.(store := w.store.(log := LogWork(w.store.log, w.worker.cur, i, phase, appended)),
       worker := w.worker.(log := Working(i, if i.step == LogAppend then phase else phase + 1)))
  }

  function Restarted(w: World, img: Image): World
    requires w.phase.Judged?
  {
    var v := Recover(Some(w.phase.told), img);
    if v.Accepted? then Begin(w.mode, w.claimFirst, v.state, v.store)
    else w.(phase := Refused(v.reason))
  }

  function Apply(w: World, a: Action): World
    requires Enabled(w, a)
  {
    match a
    case Work(p) => WorkerStep(w, p)
    case Finish => if w.claimFirst then w.(posted := |w.hist|) else w.(counter := w.worker.claimed)
    case PublishEffect => Published(w)
    case LogEffect(appended) => Logged(w, appended)
    case Die => w.(worker := w.worker.(alive := false))
    case Deliver => Delivered(w)
    case Prepare(hold, armed, faultArmed) =>
      w.(view := w.view.(hold := w.view.hold || hold, armed := armed, faultArmed := faultArmed))
    case Kill => w.(phase := Barrier(w.counter))
    case Resolve =>
      w.(phase := if w.view.failure.Some? then Refused(w.view.failure.value)
                  else Judged(Expectation(w.view.state.value, w.view.inFlight)))
    case TimeOut => w.(phase := Refused("observation barrier"))
    case Restart(img) => Restarted(w, img)
  }

  /** A run of the campaign: from a store on which nothing was ever acknowledged, any enabled steps. */
  ghost predicate Reaches(start: World, actions: seq<Action>, w: World)
    decreases |actions|
  {
    if actions == [] then w == start
    else Enabled(start, actions[0]) && Reaches(Apply(start, actions[0]), actions[1..], w)
  }

  /** A new store, opened by the first worker: nothing acknowledged, no header. */
  function FirstImage(): Image { Image(EMPTY_ROOT, None, []) }

  function Start(mode: Mode, claimFirst: bool): World {
    var v := Recover(None, FirstImage());
    assert v == Accepted(ChaosState(EMPTY_ROOT, 1, 0), Store(EMPTY_ROOT, Log(Some(1), None, [], 0)), 0) by {
      assert [][..0] == LogBytes(0, 0, 0);
    }
    Begin(mode, claimFirst, v.state, v.store)
  }
}
