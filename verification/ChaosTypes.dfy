/** The kill campaign's messages and the page's view of a run, as values
    (packages/core/src/next/spill/chaos-workload.ts and packages/core/browser/next-storage-run.ts). */
module ChaosTypes {
  import opened Wrappers

  /** A root the publisher wrote, and a text that tells its blob list from any other. */
  datatype Root = Root(round: nat, identity: string)

  /** What the store holds according to the acknowledgements received. */
  datatype ChaosState = ChaosState(root: Root, generation: nat, flushed: nat)

  datatype StepKind = Write | Publish | Reclaim | LogAppend | LogFlush | Truncate | Reset | Spill | Read

  /** A step about to run; `root` for a publish or reclaim that writes one, `truncateTo` for a truncate. */
  datatype Intent = Intent(step: StepKind, sequence: nat, root: Option<Root>, truncateTo: Option<nat>)

  datatype Message =
    | Announce(intent: Intent)
    | Began(sequence: nat)
    | Settled(sequence: nat)
    | Ack(state: ChaosState)
    | Done(sequence: nat)
    | Recovered(recovery: ChaosState)
    | Failure(text: string)
    | Request(id: nat, begin: bool, request: string)
    | Injecting

  /** A message as posted: the worker numbers them from 1. */
  datatype Numbered = Numbered(n: nat, message: Message)

  datatype Mode = Serial | Concurrent

  /** An armed kill: `page` is a page close (it holds from then on), otherwise a terminate. */
  datatype Armed = Armed(target: StepKind, remaining: int, page: bool)

  /** The fields of `ChaosRun` that the message handler reads and writes. */
  datatype View = View(
    received: nat,
    state: Option<ChaosState>,
    inFlight: seq<Intent>,
    began: set<nat>,
    settled: set<nat>,
    requests: map<nat, string>,
    hold: bool,
    failure: Option<string>,
    armed: Option<Armed>,
    faultArmed: bool,
    completed: nat)

  const OUT_OF_ORDER: string := "out of order"

  function Fresh(): View {
    View(0, None, [], {}, {}, map[], false, None, None, false, 0)
  }

  /** `Map.set` on an insertion-ordered map keyed by sequence. */
  function Put(list: seq<Intent>, intent: Intent): (r: seq<Intent>)
    ensures intent in r
    ensures forall x :: x in list && x.sequence != intent.sequence ==> x in r
    ensures forall x :: x in r ==> x == intent || x in list
  {
    if list == [] then [intent]
    else if list[0].sequence == intent.sequence then [intent] + list[1..]
    else [list[0]] + Put(list[1..], intent)
  }

  /** `Map.delete`: the rest keep their order. */
  function Drop(list: seq<Intent>, sequence: nat): (r: seq<Intent>)
    ensures |r| <= |list|
    ensures forall x :: x in r <==> x in list && x.sequence != sequence
  {
    if list == [] then []
    else if list[0].sequence == sequence then Drop(list[1..], sequence)
    else [list[0]] + Drop(list[1..], sequence)
  }

  /** The effect of one delivered message, and the go the page answers with. */
  datatype Reaction = Reaction(view: View, go: Option<nat>)

  function Receive(v: View, mode: Mode, numbered: Numbered): Reaction {
    var ordered := v.failure.Some? || numbered.n == v.received + 1;
    var u := v.(failure := if ordered then v.failure else Some(OUT_OF_ORDER), received := numbered.n);
    match numbered.message
    case Recovered(s) => Reaction(u.(state := Some(s)), None)
    case Ack(s) => Reaction(u.(state := Some(s)), None)
    case Failure(text) => Reaction(u.(failure := if u.failure.Some? then u.failure else Some(text)), None)
    case Request(id, begin, request) =>
      Reaction(u.(requests := if begin then u.requests[id := request] else u.requests - {id}), None)
    case Injecting => Reaction(u.(faultArmed := false, hold := u.hold || u.faultArmed), None)
    case Began(s) => Reaction(u.(began := u.began + {s}), None)
    case Settled(s) => Reaction(u.(settled := u.settled + {s}), None)
    case Done(s) => Reaction(u.(inFlight := Drop(u.inFlight, s), completed := u.completed + 1), None)
    case Announce(intent) => Answer(u, mode, intent)
  }

  /** An intent: recorded and answered with a go, unless the page holds; an armed kill may fire on it. */
  function Answer(u: View, mode: Mode, intent: Intent): Reaction {
    if u.hold then Reaction(u, None)
    else
      var w := u.(inFlight := Put(u.inFlight, intent));
      if mode == Concurrent || w.armed.None? || w.armed.value.target != intent.step then
        Reaction(w, Some(intent.sequence))
      else
        var armed := w.armed.value.(remaining := w.armed.value.remaining - 1);
        if armed.remaining == 0 then
          Reaction(w.(armed := None, hold := armed.page), Some(intent.sequence))
        else
          Reaction(w.(armed := Some(armed)), Some(intent.sequence))
  }

  /** The page's judgement, handed to the next worker. */
  datatype Expectation = Expectation(state: ChaosState, inFlight: seq<Intent>)

  /** Where a kill landed (`landingOf`). */
  datatype Landing =
    | Between
    | Before(step: StepKind)
    | In(step: StepKind)
    | Window(step: StepKind)
    | After(step: StepKind)

  function LandingOf(v: View): Landing {
    if v.inFlight == [] then Between
    else
      var current := v.inFlight[0];
      if current.sequence !in v.began then Before(current.step)
      else if current.sequence !in v.settled then
        if |v.requests| > 0 then In(current.step) else Window(current.step)
      else After(current.step)
  }
}
