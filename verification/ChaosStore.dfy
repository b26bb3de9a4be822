/** The store under the kill campaign, what a crash may leave of it, and the check a recovering worker
    runs (packages/core/src/next/spill/chaos-workload.ts). The store keeps the guarantees its contract
    gives (packages/core/src/next/storage/contract.ts): publishes are atomic, a flush is a barrier. */
module ChaosStore {
  import opened Wrappers
  import opened ChaosTypes

  /** `durable` bytes survive a crash; `staged` is a header written and not flushed. */
  datatype Log = Log(header: Option<nat>, staged: Option<nat>, bytes: seq<int>, durable: nat)
  datatype Store = Store(root: Root, log: Log)

  /** What a recovering worker reads. A torn or absent header names no generation. */
  datatype Image = Image(root: Root, header: Option<nat>, log: seq<int>)

  /** A crash keeps the root and the durable prefix; unflushed bytes and headers are undetermined. */
  ghost predicate MayLeave(s: Store, img: Image) {
    && img.root == s.root
    && (img.header == s.log.header || (s.log.staged.Some? && (img.header == s.log.staged || img.header == None)))
    && s.log.durable <= |s.log.bytes|
    && s.log.durable <= |img.log|
    && img.log[..s.log.durable] == s.log.bytes[..s.log.durable]
  }

  const EMPTY_ROOT: Root := Root(0, "0:811c9dc5")

  /** What the workload writes at each place of its log, so that a reader can tell. */
  function LogByte(generation: nat, offset: nat): int {
    (generation * 97 + offset * 13 + offset / 512) % 256
  }

  function LogBytes(generation: nat, offset: nat, length: nat): (r: seq<int>)
    ensures |r| == length
    ensures forall k :: 0 <= k < length ==> r[k] == LogByte(generation, offset + k)
  {
    seq(length, k requires 0 <= k => LogByte(generation, offset + k))
  }

  predicate Resetting(inFlight: seq<Intent>) {
    exists k :: 0 <= k < |inFlight| && inFlight[k].step == Reset
  }

  predicate Pending(inFlight: seq<Intent>, root: Root) {
    exists k :: 0 <= k < |inFlight| && inFlight[k].root == Some(root)
  }

  /** The acknowledged length, cut to the shortest in-flight truncate. */
  function Cut(flushed: nat, inFlight: seq<Intent>): (r: nat)
    ensures r <= flushed
    ensures forall k :: 0 <= k < |inFlight| && inFlight[k].truncateTo.Some? ==> r <= inFlight[k].truncateTo.value
    ensures r == flushed || exists k :: 0 <= k < |inFlight| && inFlight[k].truncateTo == Some(r)
  {
    if inFlight == [] then flushed
    else
      var rest := Cut(flushed, inFlight[1..]);
      assert forall k :: 1 <= k < |inFlight| ==> inFlight[k] == inFlight[1..][k - 1];
      if inFlight[0].truncateTo.Some? && inFlight[0].truncateTo.value < rest then inFlight[0].truncateTo.value else rest
  }

  datatype Verdict =
    | Corrupt(reason: string)
    | Accepted(state: ChaosState, store: Store, verified: nat)

  datatype Header = NoHeader | Names(generation: nat, verified: nat)

  /** Which generation the log continues and how many acknowledged bytes must read back. */
  function HeaderOf(known: ChaosState, inFlight: seq<Intent>, header: Option<nat>): Header {
    if header == Some(known.generation) then
      Names(known.generation, if Resetting(inFlight) then 0 else Cut(known.flushed, inFlight))
    else if Resetting(inFlight) && (header.None? || header == Some(known.generation + 1)) then
      Names(known.generation + 1, 0)
    else if known.generation == 0 && known.flushed == 0 && header.None? then
      Names(0, 0)
    else NoHeader
  }

  function Known(told: Option<Expectation>): ChaosState {
    if told.Some? then told.value.state else ChaosState(EMPTY_ROOT, 0, 0)
  }

  function InFlight(told: Option<Expectation>): seq<Intent> {
    if told.Some? then told.value.inFlight else []
  }

  /** The recovery `runChaos` performs before its workload: check, then continue from what was verified. */
  function Recover(told: Option<Expectation>, img: Image): Verdict {
    var known, inFlight := Known(told), InFlight(told);
    if img.root != known.root && !Pending(inFlight, img.root) then Corrupt("root")
    else
      match HeaderOf(known, inFlight, img.header)
      case NoHeader => Corrupt("log header")
      case Names(generation, verified) =>
        if |img.log| < verified then Corrupt("log length")
        else if img.log[..verified] != LogBytes(generation, 0, verified) then Corrupt("log byte")
        else if verified == 0 then
          Accepted(ChaosState(img.root, generation + 1, 0),
                   Store(img.root, Log(Some(generation + 1), None, [], 0)), 0)
        else
          Accepted(ChaosState(img.root, generation, verified),
                   Store(img.root, Log(img.header, None, img.log[..verified], verified)), verified)
  }

  // ── What the check means ─────────────────────────────────────────────────────────────────────

  ghost predicate Reads(log: seq<int>, generation: nat, length: nat) {
    length <= |log| && forall k :: 0 <= k < length ==> log[k] == LogByte(generation, k)
  }

  /** Between acknowledgements: the store holds exactly what `state` says, durably. */
  ghost predicate Settles(state: ChaosState, s: Store) {
    && s.root == state.root
    && Steady(s.log, state.generation, state.flushed)
  }

  ghost predicate Steady(log: Log, generation: nat, flushed: nat) {
    && log.header == Some(generation)
    && log.staged == None
    && flushed <= log.durable <= |log.bytes|
    && Reads(log.bytes, generation, |log.bytes|)
  }

  /** No acknowledgement the page holds is contradicted: the root is acknowledged or in flight; unless a
      reset is in flight, the header names the acknowledged generation, and what was acknowledged reads back
      as written, up to the shortest length a truncate under way may leave. */
  ghost predicate Allowed(told: Option<Expectation>, img: Image) {
    var known, inFlight := Known(told), InFlight(told);
    && (img.root == known.root || exists x :: x in inFlight && x.root == Some(img.root))
    && (if exists x :: x in inFlight && x.step == Reset
        then img.header.None? || known.generation <= img.header.value <= known.generation + 1
        else if img.header == Some(known.generation)
        then Reads(img.log, known.generation, Cut(known.flushed, inFlight))
        else img.header == None && known.generation == known.flushed == 0)
  }

  lemma RecoverIff(told: Option<Expectation>, img: Image)
    ensures Recover(told, img).Accepted? <==> Allowed(told, img)
  {
    var known, inFlight := Known(told), InFlight(told);
    assert Resetting(inFlight) <==> exists x :: x in inFlight && x.step == Reset by {
      if x :| x in inFlight && x.step == Reset { var k :| 0 <= k < |inFlight| && inFlight[k] == x; }
    }
    assert Pending(inFlight, img.root) <==> exists x :: x in inFlight && x.root == Some(img.root) by {
      if x :| x in inFlight && x.root == Some(img.root) { var k :| 0 <= k < |inFlight| && inFlight[k] == x; }
    }
    match HeaderOf(known, inFlight, img.header)
    case NoHeader =>
    case Names(generation, verified) =>
      if verified <= |img.log| {
        assert img.log[..verified] == LogBytes(generation, 0, verified) <==> Reads(img.log, generation, verified);
      }
  }

  /** What an accepted recovery leaves: a settled store at the found root, holding every acknowledged byte
      that no in-flight truncate or reset may have cut. */
  lemma RecoverSettles(told: Option<Expectation>, img: Image)
    requires Recover(told, img).Accepted?
    ensures var v := Recover(told, img);
      && Settles(v.state, v.store) && v.state.root == img.root
      && (!Resetting(InFlight(told)) && Cut(Known(told).flushed, InFlight(told)) > 0 ==>
            v.state.generation == Known(told).generation
            && v.state.flushed == |v.store.log.bytes| == Cut(Known(told).flushed, InFlight(told)))
  {
  }
}
