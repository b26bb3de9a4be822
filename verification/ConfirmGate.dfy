/** The write gate and the confirmation layer (packages/devtools/src/confirm.ts, console.ts, statements.ts):
    overlapping runs of scripts, prompts, answers and cancellations, in any order. */
module ConfirmGate {
  import opened Wrappers
  import opened WhereScanner

  datatype Intent = Select | Session | Insert | Update(filtered: bool) | Delete(filtered: bool) | Execute(confirm: bool)

  /** One statement of a script: its text, and what the compiler says it does. */
  datatype Part = Part(sql: string, intent: Intent)

  predicate ChangesData(i: Intent) { !i.Select? && !i.Session? }

  predicate NeedsConfirmation(i: Intent) { ChangesData(i) && (!i.Execute? || i.confirm) }

  // ── The confirmation layer ───────────────────────────────────────────────────────────────────

  datatype Prompt = OfRun(run: nat) | Outside(number: nat)

  datatype Settled = Settled(prompt: Prompt, confirmed: bool)

  /** The siblings' inert flags, those this layer set, the open prompt, and every promise it resolved. */
  datatype Layer = Layer(inert: map<nat, bool>, silenced: set<nat>, open: Option<Prompt>, settled: seq<Settled>)

  /** The flags as they are without this layer's own. */
  function Baseline(l: Layer): map<nat, bool> { map s | s in l.inert :: l.inert[s] && s !in l.silenced }

  function SilenceOf(l: Layer, on: bool): Layer {
    var before := Baseline(l);
    if !on then l.(inert := before, silenced := {})
    else l.(inert := map s | s in before :: true, silenced := set s | s in before && !before[s])
  }

  function CloseOf(l: Layer, confirmed: bool): Layer {
    if l.open == None then l
    else SilenceOf(l, false).(open := None, settled := l.settled + [Settled(l.open.value, confirmed)])
  }

  function AskOf(l: Layer, p: Prompt): Layer { SilenceOf(CloseOf(l, false).(open := Some(p)), true) }

  ghost predicate LayerOk(l: Layer) {
    l.silenced <= l.inert.Keys
    && (l.open == None ==> l.silenced == {})
    && (l.open != None ==> forall s :: s in l.inert ==> l.inert[s])
    && (forall i :: 0 <= i < |l.settled| ==> l.open != Some(l.settled[i].prompt))
    && (forall i, j :: 0 <= i < j < |l.settled| ==> l.settled[i].prompt != l.settled[j].prompt)
  }

  ghost predicate Unused(l: Layer, p: Prompt) {
    l.open != Some(p) && forall i :: 0 <= i < |l.settled| ==> l.settled[i].prompt != p
  }

  predicate WasOpened(l: Layer, p: Prompt) {
    l.open == Some(p) || exists i :: 0 <= i < |l.settled| && l.settled[i].prompt == p
  }

  /** Asking and closing keep the flags of the panel under the prompt, and settle no prompt twice. */
  lemma LayerKeeps(l: Layer, p: Prompt, confirmed: bool)
    requires LayerOk(l) && Unused(l, p)
    ensures LayerOk(AskOf(l, p)) && Baseline(AskOf(l, p)) == Baseline(l)
    ensures LayerOk(CloseOf(l, confirmed)) && Baseline(CloseOf(l, confirmed)) == Baseline(l)
    ensures CloseOf(l, confirmed).inert == Baseline(l)
    ensures CloseOf(AskOf(l, p), confirmed).inert == Baseline(l)
  {
    CloseKeeps(l, confirmed);
    CloseKeeps(l, false);
    SilenceKeeps(CloseOf(l, false), p);
    CloseKeeps(AskOf(l, p), confirmed);
  }

  lemma CloseKeeps(l: Layer, confirmed: bool)
    requires LayerOk(l)
    ensures var m := CloseOf(l, confirmed);
            LayerOk(m) && Baseline(m) == Baseline(l) == m.inert && m.open == None
  {
  }

  lemma SilenceKeeps(l: Layer, p: Prompt)
    requires LayerOk(l) && l.open == None && Unused(l, p)
    ensures var m := SilenceOf(l.(open := Some(p)), true);
            LayerOk(m) && Baseline(m) == Baseline(l) && m.open == Some(p) && m.settled == l.settled
  {
  }

  class ConfirmLayer {
    var inert: map<nat, bool>
    var silenced: set<nat>
    var open: Option<Prompt>
    var settled: seq<Settled>

    function State(): Layer
      reads this
    {
      Layer(inert, silenced, open, settled)
    }

    constructor (inert: map<nat, bool>)
      ensures State() == Layer(inert, {}, None, []) && LayerOk(State())
    {
      this.inert := inert;
      silenced, open, settled := {}, None, [];
    }

    method Silence(on: bool)
      requires silenced <= inert.Keys
      modifies this
      ensures State() == SilenceOf(old(State()), on)
    {
      var todo := silenced;
      while todo != {}
        invariant todo <= old(silenced) && inert.Keys == old(inert).Keys
        invariant forall s :: s in inert ==> inert[s] == (old(inert)[s] && (s in todo || s !in old(silenced)))
        invariant silenced == old(silenced) && open == old(open) && settled == old(settled)
        decreases todo
      {
        var sibling :| sibling in todo;
        inert := inert[sibling := false];
        todo := todo - {sibling};
      }
      silenced := {};
      ghost var before := inert;
      assert before == Baseline(old(State()));
      if !on { return; }
      todo := inert.Keys;
      while todo != {}
        invariant todo <= before.Keys == inert.Keys
        invariant forall s :: s in inert ==> inert[s] == (before[s] || s !in todo)
        invariant silenced == set s | s in before && s !in todo && !before[s]
        invariant open == old(open) && settled == old(settled)
        decreases todo
      {
        var sibling :| sibling in todo;
        todo := todo - {sibling};
        if !inert[sibling] {
          inert := inert[sibling := true];
          silenced := silenced + {sibling};
        }
      }
    }

    method Close(confirmed: bool)
      requires LayerOk(State())
      modifies this
      ensures State() == CloseOf(old(State()), confirmed) && LayerOk(State())
    {
      if open == None { return; }
      CloseKeeps(State(), confirmed);
      var resolve := open.value;
      open := None;
      Silence(false);
      settled := settled + [Settled(resolve, confirmed)];
    }

    method Ask(p: Prompt)
      requires LayerOk(State()) && Unused(State(), p)
      modifies this
      ensures State() == AskOf(old(State()), p) && LayerOk(State())
    {
      LayerKeeps(State(), p, false);
      Close(false);
      open := Some(p);
      Silence(true);
    }
  }

  // ── Runs ─────────────────────────────────────────────────────────────────────────────────────

  datatype Phase =
    | Loading                                // past the running check, the statement tools not yet there
    | Waiting                                // its prompt is open
    | Answered(confirmed: bool)              // its promise is resolved, the run not yet resumed
    | Running(next: nat, busy: bool)
    | Ended

  datatype Run = Run(script: seq<Part>, phase: Phase)

  datatype Sent = Statement(run: nat, part: Part) | Preview(run: nat)

  datatype World = World(writes: bool, layer: Layer, controller: Option<nat>, aborted: set<nat>,
                         runs: map<nat, Run>, sent: seq<Sent>)

  datatype Action =
    | Start(run: nat, script: seq<Part>)
    | Gate(run: nat, bad: bool)  // the tools are there; `bad`: a statement does not compile
    | Answer(confirmed: bool)    // a button, Escape, the backdrop, or a dismissal
    | OtherAsk(number: nat)      // the explorer or a restore opens its own prompt
    | Resume(run: nat)
    | Send(run: nat)
    | Reply(run: nat, ok: bool)
    | Finish(run: nat)
    | Cancel

  predicate Changes(script: seq<Part>) { exists i :: 0 <= i < |script| && ChangesData(script[i].intent) }

  predicate Needs(script: seq<Part>) { exists i :: 0 <= i < |script| && NeedsConfirmation(script[i].intent) }

  /** A row count comes with the prompt of a single UPDATE or DELETE that is unfiltered, or whose WHERE clause can be
      read off its text. */
  ghost predicate Previews(script: seq<Part>) { |script| == 1 && Previewable(script[0]) }

  ghost predicate Previewable(part: Part) {
    match part.intent
    case Update(filtered) => filtered ==> ClauseOf(Lex(part.sql)).Some?
    case Delete(filtered) => filtered ==> ClauseOf(Lex(part.sql)).Some?
    case _ => false
  }

  function PhaseOf(w: World, id: nat): Phase { if id in w.runs then w.runs[id].phase else Ended }

  function Put(w: World, id: nat, phase: Phase): World
    requires id in w.runs
  {
    w.(runs := w.runs[id := w.runs[id].(phase := phase)])
  }

  /** The promise of the open prompt is resolved; a run waiting for it can go on. */
  function Closed(w: World, confirmed: bool): World {
    var v := w.(layer := CloseOf(w.layer, confirmed));
    if w.layer.open.Some? && w.layer.open.value.OfRun? && w.layer.open.value.run in w.runs
    then Put(v, w.layer.open.value.run, Answered(confirmed)) else v
  }

  function Asked(w: World, p: Prompt): World { Closed(w, false).(layer := AskOf(w.layer, p)) }

  function Begin(w: World, id: nat): World
    requires id in w.runs
  {
    Put(w, id, Running(0, false)).(controller := Some(id))
  }

  function Stop(w: World, id: nat): World
    requires id in w.runs
  {
    Put(w, id, Ended).(controller := None)
  }

  ghost function GateOf(w: World, id: nat, bad: bool): World
    requires id in w.runs
  {
    var script := w.runs[id].script;
    if bad || script == [] then Put(w, id, Ended)
    else if Changes(script) && !w.writes then Put(w, id, Ended)
    else if Needs(script) then
      var v := Put(Asked(w, OfRun(id)), id, Waiting);
      if Previews(script) then v.(sent := v.sent + [Preview(id)]) else v
    else Begin(w, id)
  }

  function SendOf(w: World, id: nat): World
    requires id in w.runs && w.runs[id].phase.Running?
  {
    var Run(script, Running(next, busy)) := w.runs[id];
    if busy || next >= |script| then w
    else if id in w.aborted then Stop(w, id)
    else Put(w, id, Running(next, true)).(sent := w.sent + [Statement(id, script[next])])
  }

  /** One event; an event no run is ready for changes nothing. */
  ghost function Step(w: World, a: Action): World {
    match a
    case Start(id, script) =>
      if id in w.runs || w.controller.Some? then w else w.(runs := w.runs[id := Run(script, Loading)])
    case Gate(id, bad) => if PhaseOf(w, id) == Loading then GateOf(w, id, bad) else w
    case Answer(confirmed) => Closed(w, confirmed)
    case OtherAsk(n) =>
      if WasOpened(w.layer, Outside(n)) then w else Asked(w, Outside(n))
    case Resume(id) =>
      if !PhaseOf(w, id).Answered? then w else if PhaseOf(w, id).confirmed then Begin(w, id) else Put(w, id, Ended)
    case Send(id) => if PhaseOf(w, id).Running? then SendOf(w, id) else w
    case Reply(id, ok) =>
      if !PhaseOf(w, id).Running? || !PhaseOf(w, id).busy then w
      else if ok then Put(w, id, Running(PhaseOf(w, id).next + 1, false)) else Stop(w, id)
    case Finish(id) =>
      if PhaseOf(w, id).Running? && !PhaseOf(w, id).busy && PhaseOf(w, id).next >= |w.runs[id].script|
          then Stop(w, id) else w
    case Cancel => if w.controller.Some? then w.(aborted := w.aborted + {w.controller.value}) else w
  }

  // ── What holds after every event ─────────────────────────────────────────────────────────────

  /** The statements of one run among everything sent, in order. */
  function SentBy(sent: seq<Sent>, id: nat): seq<Part> {
    if sent == [] then []
    else var last := sent[|sent| - 1];
      SentBy(sent[..|sent| - 1], id) + if last.Statement? && last.run == id then [last.part] else []
  }

  ghost predicate Confirmed(l: Layer, id: nat, confirmed: bool) { Settled(OfRun(id), confirmed) in l.settled }

  ghost predicate Cleared(writes: bool, l: Layer, id: nat, script: seq<Part>) {
    (writes || !Changes(script)) && (Needs(script) ==> Confirmed(l, id, true))
  }

  ghost predicate RunOk(writes: bool, l: Layer, id: nat, run: Run, sent: seq<Part>) {
    match run.phase
    case Loading => sent == [] && Unused(l, OfRun(id))
    case Waiting => sent == [] && l.open == Some(OfRun(id)) && (writes || !Changes(run.script)) && Needs(run.script)
    case Answered(confirmed) =>
      sent == [] && Confirmed(l, id, confirmed) && (writes || !Changes(run.script)) && Needs(run.script)
    case Running(next, busy) =>
      Cleared(writes, l, id, run.script)
      && next <= |run.script| && (busy ==> next < |run.script|)
      && sent == run.script[..if busy then next + 1 else next]
    case Ended => sent <= run.script && (sent != [] ==> Cleared(writes, l, id, run.script))
  }

  ghost predicate Inv(w: World) {
    LayerOk(w.layer)
    && (forall id :: id in w.runs ==> RunOk(w.writes, w.layer, id, w.runs[id], SentBy(w.sent, id)))
    && (forall id :: id !in w.runs ==> SentBy(w.sent, id) == [] && Unused(w.layer, OfRun(id)))
    && (forall id :: w.layer.open == Some(OfRun(id)) ==> id in w.runs && w.runs[id].phase == Waiting)
  }

  function Initial(writes: bool, inert: map<nat, bool>): World {
    World(writes, Layer(inert, {}, None, []), None, {}, map[], [])
  }

  ghost function After(w: World, actions: seq<Action>): World
    decreases |actions|
  {
    if actions == [] then w else Step(After(w, actions[..|actions| - 1]), actions[|actions| - 1])
  }

  // ── One event keeps the invariant ────────────────────────────────────────────────────────────

  /** The layer moved without touching this run's prompt. */
  ghost predicate Apart(l: Layer, m: Layer, id: nat) {
    l.settled <= m.settled
    && (Unused(l, OfRun(id)) ==> Unused(m, OfRun(id)))
    && (l.open == Some(OfRun(id)) ==> m.open == Some(OfRun(id)))
  }

  lemma RunKeeps(writes: bool, l: Layer, m: Layer, id: nat, run: Run, sent: seq<Part>)
    requires RunOk(writes, l, id, run, sent) && Apart(l, m, id)
    ensures RunOk(writes, m, id, run, sent)
  {
    assert forall c :: Confirmed(l, id, c) ==> Confirmed(m, id, c);
    hide Unused, Changes, Needs;
  }

  /** What a new phase of run `id`, and a new layer that only concerns `id`, must satisfy. */
  lemma RunMoves(w: World, u: World, id: nat)
    requires Inv(w) && u.writes == w.writes && id in u.runs && u.runs.Keys == w.runs.Keys + {id}
    requires LayerOk(u.layer) && RunOk(u.writes, u.layer, id, u.runs[id], SentBy(u.sent, id))
    requires forall other :: other != id ==>
               SentBy(u.sent, other) == SentBy(w.sent, other) && Apart(w.layer, u.layer, other)
               && (other in w.runs ==> u.runs[other] == w.runs[other])
    requires forall other :: u.layer.open == Some(OfRun(other)) ==> other in u.runs && u.runs[other].phase == Waiting
    ensures Inv(u)
  {
    forall other | other in u.runs ensures RunOk(u.writes, u.layer, other, u.runs[other], SentBy(u.sent, other)) {
      if other != id { RunKeeps(w.writes, w.layer, u.layer, other, w.runs[other], SentBy(w.sent, other)); }
    }
  }

  lemma SentGrows(sent: seq<Sent>, x: Sent)
    ensures forall id :: SentBy(sent + [x], id)
                 == SentBy(sent, id) + if x.Statement? && x.run == id then [x.part] else []
  {
    assert (sent + [x])[..|sent|] == sent;
  }

  lemma ClosedInv(w: World, confirmed: bool)
    requires Inv(w)
    ensures Inv(Closed(w, confirmed)) && Baseline(Closed(w, confirmed).layer) == Baseline(w.layer)
    ensures Closed(w, confirmed).layer.open == None
    ensures forall p :: Unused(w.layer, p) ==> Unused(Closed(w, confirmed).layer, p)
    ensures forall id :: PhaseOf(w, id) == Loading ==> PhaseOf(Closed(w, confirmed), id) == Loading
  {
    var u := Closed(w, confirmed);
    CloseKeeps(w.layer, confirmed);
    if w.layer.open.Some? && w.layer.open.value.OfRun? {
      var id := w.layer.open.value.run;
      assert RunOk(w.writes, w.layer, id, w.runs[id], SentBy(w.sent, id));
      assert u.layer.settled[|w.layer.settled|] == Settled(OfRun(id), confirmed);
      RunMoves(w, u, id);
    } else {
      forall id | id in u.runs ensures RunOk(u.writes, u.layer, id, u.runs[id], SentBy(u.sent, id)) {
        RunKeeps(w.writes, w.layer, u.layer, id, w.runs[id], SentBy(w.sent, id));
      }
    }
  }

  lemma OpenedInv(w: World, p: Prompt)
    requires Inv(w) && w.layer.open == None && Unused(w.layer, p)
    requires p.OfRun? ==> PhaseOf(w, p.run) == Loading && Needs(w.runs[p.run].script)
    requires p.OfRun? ==> w.writes || !Changes(w.runs[p.run].script)
    ensures var v := w.(layer := SilenceOf(w.layer.(open := Some(p)), true));
            var u := if p.OfRun? then Put(v, p.run, Waiting) else v;
            Inv(u) && Baseline(u.layer) == Baseline(w.layer)
  {
    var v := w.(layer := SilenceOf(w.layer.(open := Some(p)), true));
    SilenceKeeps(w.layer, p);
    if p.OfRun? {
      assert RunOk(w.writes, w.layer, p.run, w.runs[p.run], SentBy(w.sent, p.run));
      RunMoves(w, Put(v, p.run, Waiting), p.run);
    } else {
      forall id | id in v.runs ensures RunOk(v.writes, v.layer, id, v.runs[id], SentBy(v.sent, id)) {
        RunKeeps(w.writes, w.layer, v.layer, id, w.runs[id], SentBy(w.sent, id));
      }
    }
  }

  lemma GateInv(w: World, id: nat, bad: bool)
    requires Inv(w) && PhaseOf(w, id) == Loading && id in w.runs
    ensures Inv(GateOf(w, id, bad)) && Baseline(GateOf(w, id, bad).layer) == Baseline(w.layer)
  {
    hide LayerOk, Changes, Needs, Unused, Baseline, SilenceOf, CloseOf, SentBy, Cleared;
    var script := w.runs[id].script;
    if bad || script == [] || (Changes(script) && !w.writes) {
      RunStarts(w, id, Put(w, id, Ended));
    } else if Needs(script) {
      GateAsks(w, id);
    } else {
      RunStarts(w, id, Begin(w, id));
    }
  }

  lemma RunStarts(w: World, id: nat, u: World)
    requires Inv(w) && PhaseOf(w, id) == Loading && id in w.runs
    requires u == Put(w, id, Ended)
             || (u == Begin(w, id) && !Needs(w.runs[id].script) && (w.writes || !Changes(w.runs[id].script)))
    ensures Inv(u)
  {
    hide LayerOk, Changes, Needs, SentBy, Unused;
    assert RunOk(w.writes, w.layer, id, w.runs[id], SentBy(w.sent, id));
    RunMoves(w, u, id);
  }

  lemma GateAsks(w: World, id: nat)
    requires Inv(w) && PhaseOf(w, id) == Loading && id in w.runs
    requires Needs(w.runs[id].script) && (w.writes || !Changes(w.runs[id].script))
    ensures var v := Put(Asked(w, OfRun(id)), id, Waiting);
            Inv(v) && Inv(v.(sent := v.sent + [Preview(id)])) && Baseline(v.layer) == Baseline(w.layer)
  {
    assert RunOk(w.writes, w.layer, id, w.runs[id], SentBy(w.sent, id));
    ClosedInv(w, false);
    ClosedScript(w, id);
    OpenedInv(Closed(w, false), OfRun(id));
    hide LayerOk, Changes, Needs, SentBy, Unused, Baseline, SilenceOf, CloseOf, RunOk;
    var v := Put(Asked(w, OfRun(id)), id, Waiting);
    SentGrows(v.sent, Preview(id));
    assert forall other :: SentBy(v.sent + [Preview(id)], other) == SentBy(v.sent, other);
  }

  lemma ClosedScript(w: World, id: nat)
    requires id in w.runs
    ensures var u := Closed(w, false);
            id in u.runs && u.runs[id].script == w.runs[id].script && u.writes == w.writes
                && u.layer == CloseOf(w.layer, false)
  {
  }

  lemma SendInv(w: World, id: nat)
    requires Inv(w) && id in w.runs && w.runs[id].phase.Running?
    ensures Inv(SendOf(w, id))
  {
    hide LayerOk, Changes, Needs, SentBy, Unused, Cleared;
    var Run(script, Running(next, busy)) := w.runs[id];
    assert RunOk(w.writes, w.layer, id, w.runs[id], SentBy(w.sent, id));
    if !busy && next < |script| {
      SentGrows(w.sent, Statement(id, script[next]));
      assert script[..next] + [script[next]] == script[..next + 1];
      RunMoves(w, SendOf(w, id), id);
    }
  }

  lemma StepInv(w: World, a: Action)
    requires Inv(w)
    ensures Inv(Step(w, a)) && Baseline(Step(w, a).layer) == Baseline(w.layer)
  {
    var u := Step(w, a);
    match a
    case Start(id, script) => if u != w { RunMoves(w, u, id); }
    case Gate(id, bad) => if PhaseOf(w, id) == Loading { GateInv(w, id, bad); }
    case Answer(confirmed) => ClosedInv(w, confirmed);
    case OtherAsk(n) =>
      if u != w {
        ClosedInv(w, false);
        OpenedInv(Closed(w, false), Outside(n));
      }
    case Send(id) => if PhaseOf(w, id).Running? { SendInv(w, id); }
    case Cancel =>
    case _ => RunsOn(w, a);
  }

  lemma RunsOn(w: World, a: Action)
    requires Inv(w) && (a.Resume? || a.Reply? || a.Finish?)
    ensures Inv(Step(w, a)) && Step(w, a).layer == w.layer
  {
    if a.Resume? { Resumes(w, a.run); } else { Ends(w, a); }
  }

  lemma Resumes(w: World, id: nat)
    requires Inv(w)
    ensures Inv(Step(w, Resume(id)))
  {
    hide LayerOk, Changes, Needs, SentBy, Unused;
    if PhaseOf(w, id).Answered? {
      assert RunOk(w.writes, w.layer, id, w.runs[id], SentBy(w.sent, id));
      RunMoves(w, Step(w, Resume(id)), id);
    }
  }

  lemma Ends(w: World, a: Action)
    requires Inv(w) && (a.Reply? || a.Finish?)
    ensures Inv(Step(w, a)) && Step(w, a).layer == w.layer
  {
    hide LayerOk, Changes, Needs, SentBy, Unused, Cleared;
    var u := Step(w, a);
    if u != w {
      assert RunOk(w.writes, w.layer, a.run, w.runs[a.run], SentBy(w.sent, a.run));
      RunMoves(w, u, a.run);
    }
  }

  lemma {:induction false} AlwaysInv(writes: bool, inert: map<nat, bool>, actions: seq<Action>)
    ensures Inv(After(Initial(writes, inert), actions))
    ensures Baseline(After(Initial(writes, inert), actions).layer) == inert
    ensures After(Initial(writes, inert), actions).writes == writes
    decreases |actions|
  {
    if actions == [] {
      assert Baseline(Initial(writes, inert).layer) == inert;
    } else {
      var before := After(Initial(writes, inert), actions[..|actions| - 1]);
      AlwaysInv(writes, inert, actions[..|actions| - 1]);
      StepInv(before, actions[|actions| - 1]);
      StepWrites(before, actions[|actions| - 1]);
    }
  }

  lemma StepWrites(w: World, a: Action)
    ensures Step(w, a).writes == w.writes
  {
  }

  // ── The console itself ───────────────────────────────────────────────────────────────────────

  /** The console's fields over its confirmation layer; each method is one stretch of execute between awaits,
      or one event. */
  class Console {
    const writes: bool
    const layer: ConfirmLayer
    var controller: Option<nat>
    var aborted: set<nat>
    var runs: map<nat, Run>
    var sent: seq<Sent>

    function State(): World
      reads this, layer
    {
      World(writes, layer.State(), controller, aborted, runs, sent)
    }

    constructor (writes: bool, inert: map<nat, bool>)
      ensures State() == Initial(writes, inert) && Inv(State()) && fresh(layer)
    {
      this.writes := writes;
      layer := new ConfirmLayer(inert);
      controller, aborted, runs, sent := None, {}, map[], [];
    }

    method SetPhase(id: nat, phase: Phase)
      requires id in runs
      modifies this`runs
      ensures runs == old(runs)[id := old(runs)[id].(phase := phase)]
    {
      runs := runs[id := runs[id].(phase := phase)];
    }

    /** The open prompt's promise resolves, and the run that awaits it is told. */
    method Settle(confirmed: bool)
      requires LayerOk(layer.State())
      modifies this`runs, layer
      ensures State() == Closed(old(State()), confirmed) && LayerOk(layer.State())
    {
      var open := layer.open;
      layer.Close(confirmed);
      if open.Some? && open.value.OfRun? && open.value.run in runs { SetPhase(open.value.run, Answered(confirmed)); }
    }

    method Ask(p: Prompt)
      requires LayerOk(layer.State()) && Unused(layer.State(), p)
      modifies this`runs, layer
      ensures State() == Asked(old(State()), p)
    {
      var open := layer.open;
      layer.Ask(p);
      if open.Some? && open.value.OfRun? && open.value.run in runs { SetPhase(open.value.run, Answered(false)); }
    }

    /** previewQuery finds a query: the statement is unfiltered, or its WHERE clause can be lifted. */
    method CanPreview(script: seq<Part>) returns (can: bool)
      ensures can == Previews(script)
    {
      if |script| != 1 { return false; }
      var intent := script[0].intent;
      if !intent.Update? && !intent.Delete? { return false; }
      if !intent.filtered { return true; }
      var where := WhereClauseOf(script[0].sql);
      return where.Some?;
    }

    /** From the statement tools' arrival to the prompt, or to the first statement. */
    method Gate(id: nat, bad: bool)
      requires Inv(State()) && id in runs && runs[id].phase == Loading
      modifies this, layer
      ensures State() == GateOf(old(State()), id, bad)
    {
      assert RunOk(writes, layer.State(), id, runs[id], SentBy(sent, id));
      hide Inv, RunOk, SentBy, AskOf, CloseOf, SilenceOf, LayerOk;
      var script := runs[id].script;
      if bad || script == [] || (Changes(script) && !writes) {
        SetPhase(id, Ended);
      } else if Needs(script) {
        Ask(OfRun(id));
        ClosedScripts(old(State()), false);
        SetPhase(id, Waiting);
        var previews := CanPreview(script);
        if previews { sent := sent + [Preview(id)]; }
      } else {
        SetPhase(id, Running(0, false));
        controller := Some(id);
      }
    }

    /** The loop over the statements, one turn of it. */
    method SendNext(id: nat)
      requires id in runs && runs[id].phase.Running?
      modifies this
      ensures State() == SendOf(old(State()), id)
    {
      var Run(script, Running(next, busy)) := runs[id];
      if busy || next >= |script| { return; }
      if id in aborted {
        SetPhase(id, Ended);
        controller := None;
      } else {
        sent := sent + [Statement(id, script[next])];
        SetPhase(id, Running(next, true));
      }
    }

    /** Any event, in any state of the panel. */
    method On(a: Action)
      requires Inv(State())
      modifies this, layer
      ensures State() == Step(old(State()), a) && Inv(State())
    {
      StepInv(State(), a);
      hide Inv, RunOk, SentBy, AskOf, CloseOf, SilenceOf, GateOf, SendOf, Closed, Asked, Changes, Needs;
      match a {
        case Start(id, script) =>
          if id !in runs && controller == None { runs := runs[id := Run(script, Loading)]; }
        case Gate(id, bad) => if id in runs && runs[id].phase == Loading { Gate(id, bad); }
        case Answer(confirmed) =>
          InvLayer(State());
          Settle(confirmed);
        case OtherAsk(n) =>
          InvLayer(State());
          if !WasOpened(layer.State(), Outside(n)) { Ask(Outside(n)); }
        case Resume(id) =>
          if id in runs && runs[id].phase.Answered? {
            if runs[id].phase.confirmed {
              SetPhase(id, Running(0, false));
              controller := Some(id);
            } else {
              SetPhase(id, Ended);
            }
          }
        case Send(id) => if id in runs && runs[id].phase.Running? { SendNext(id); }
        case Reply(id, ok) =>
          if id in runs && runs[id].phase.Running? && runs[id].phase.busy {
            if ok { SetPhase(id, Running(runs[id].phase.next + 1, false)); } else {
              SetPhase(id, Ended);
              controller := None;
            }
          }
        case Finish(id) =>
          if id in runs && runs[id].phase.Running? && !runs[id].phase.busy && runs[id].phase.next >= |runs[id].script| {
            SetPhase(id, Ended);
            controller := None;
          }
        case Cancel => if controller.Some? { aborted := aborted + {controller.value}; }
      }
    }
  }

  lemma InvLayer(w: World)
    requires Inv(w)
    ensures LayerOk(w.layer)
  {
  }

  lemma ClosedScripts(w: World, confirmed: bool)
    ensures forall id :: id in w.runs ==> id in Closed(w, confirmed).runs
  {
  }

  // ── What the person at the panel is promised ─────────────────────────────────────────────────

  lemma {:induction false} SentIsCounted(sent: seq<Sent>, i: nat)
    requires i < |sent| && sent[i].Statement?
    ensures sent[i].part in SentBy(sent, sent[i].run)
  {
    if i < |sent| - 1 { SentIsCounted(sent[..|sent| - 1], i); }
  }

  /** After any events, what a run has sent is the start of its script, and is nothing unless writes are allowed
      or the script changes no data, and its own prompt, if it needs one, was answered with yes and never no. */
  lemma GateHolds(writes: bool, inert: map<nat, bool>, actions: seq<Action>, id: nat)
    requires id in After(Initial(writes, inert), actions).runs
    ensures var w := After(Initial(writes, inert), actions);
            var sent, script := SentBy(w.sent, id), w.runs[id].script;
            sent <= script
            && (sent != [] ==> (writes || !Changes(script))
                               && (Needs(script) ==> Confirmed(w.layer, id, true) && !Confirmed(w.layer, id, false)))
  {
    AlwaysInv(writes, inert, actions);
    var w := After(Initial(writes, inert), actions);
    assert RunOk(w.writes, w.layer, id, w.runs[id], SentBy(w.sent, id));
  }

  /** With writes off, no statement that changes data is ever sent. */
  lemma NothingChanges(inert: map<nat, bool>, actions: seq<Action>, i: nat)
    requires i < |After(Initial(false, inert), actions).sent|
        && After(Initial(false, inert), actions).sent[i].Statement?
    ensures var intent := After(Initial(false, inert), actions).sent[i].part.intent; intent.Select? || intent.Session?
  {
    var w := After(Initial(false, inert), actions);
    var id := w.sent[i].run;
    AlwaysInv(false, inert, actions);
    SentIsCounted(w.sent, i);
    assert id in w.runs;
    GateHolds(false, inert, actions, id);
    var k :| 0 <= k < |SentBy(w.sent, id)| && SentBy(w.sent, id)[k] == w.sent[i].part;
    assert w.runs[id].script[k] == w.sent[i].part;
  }

  /** Every prompt is answered at most once, and with none open the panel's flags are as they were. */
  lemma PanelRestored(writes: bool, inert: map<nat, bool>, actions: seq<Action>)
    ensures var l := After(Initial(writes, inert), actions).layer;
            (forall i, j :: 0 <= i < j < |l.settled| ==> l.settled[i].prompt != l.settled[j].prompt)
            && (l.open == None ==> l.inert == inert)
            && (l.open != None ==> l.inert.Keys == inert.Keys && forall s :: s in inert ==> l.inert[s])
  {
    AlwaysInv(writes, inert, actions);
    var l := After(Initial(writes, inert), actions).layer;
    assert l.inert.Keys == Baseline(l).Keys;
    if l.open == None { assert Baseline(l) == l.inert; }
  }

  /** The run is over, or was cancelled while it executed. */
  ghost predicate Quiet(w: World, id: nat) {
    id in w.runs && (w.runs[id].phase == Ended || (w.runs[id].phase.Running? && id in w.aborted))
  }

  lemma QuietStays(w: World, a: Action, id: nat)
    requires Inv(w) && Quiet(w, id)
    ensures Quiet(Step(w, a), id) && SentBy(Step(w, a).sent, id) == SentBy(w.sent, id)
  {
    hide SentBy, LayerOk, RunOk, Changes, Needs, Baseline, SilenceOf, CloseOf, Closed, Unused, Inv;
    match a
    case Answer(confirmed) => ClosedRuns(w, confirmed, id);
    case OtherAsk(n) => ClosedRuns(w, false, id);
    case Gate(run, bad) =>
      ClosedRuns(w, false, id);
      SentGrows(w.sent, Preview(run));
    case _ => QuietRuns(w, a, id);
  }

  lemma QuietRuns(w: World, a: Action, id: nat)
    requires Quiet(w, id) && !a.Answer? && !a.OtherAsk? && !a.Gate?
    ensures Quiet(Step(w, a), id) && SentBy(Step(w, a).sent, id) == SentBy(w.sent, id)
  {
    hide SentBy;
    if a.Send? && PhaseOf(w, a.run).Running? && w.runs[a.run].phase.next < |w.runs[a.run].script| {
      SentGrows(w.sent, Statement(a.run, w.runs[a.run].script[w.runs[a.run].phase.next]));
    }
  }

  lemma ClosedRuns(w: World, confirmed: bool, id: nat)
    requires Inv(w) && Quiet(w, id)
    ensures var u := Closed(w, confirmed);
            id in u.runs && u.runs[id] == w.runs[id] && u.sent == w.sent && u.aborted == w.aborted
  {
  }

  /** A run that failed, finished or was cancelled sends nothing more, whatever happens next. */
  lemma {:induction false} QuietSendsNothing(w: World, actions: seq<Action>, id: nat)
    requires Inv(w) && Quiet(w, id)
    ensures Inv(After(w, actions)) && Quiet(After(w, actions), id)
    ensures SentBy(After(w, actions).sent, id) == SentBy(w.sent, id)
    decreases |actions|
  {
    if actions != [] {
      var before := After(w, actions[..|actions| - 1]);
      QuietSendsNothing(w, actions[..|actions| - 1], id);
      StepInv(before, actions[|actions| - 1]);
      QuietStays(before, actions[|actions| - 1], id);
    }
  }

  /** A statement that fails, or Cancel, makes its run quiet. */
  lemma BecomesQuiet(w: World, id: nat)
    requires Inv(w) && Single(w) && PhaseOf(w, id).Running?
    ensures Quiet(Step(w, Cancel), id)
    ensures PhaseOf(w, id).busy ==> Quiet(Step(w, Reply(id, false)), id)
  {
  }

  // ── What the running check does not promise ──────────────────────────────────────────────────

  /** The run that executes is the one the Cancel button reaches, and the only one. */
  ghost predicate Single(w: World) {
    (forall id :: id in w.runs && w.runs[id].phase.Running? ==> w.controller == Some(id))
    && (w.controller.Some? ==> PhaseOf(w, w.controller.value).Running?)
  }

  /** This event sets a run going: it resumes after a yes, or passes the gate without a prompt. */
  predicate Begins(w: World, a: Action) {
    (a.Resume? && PhaseOf(w, a.run) == Answered(true))
    || (a.Gate? && a.run in w.runs && PhaseOf(w, a.run) == Loading && !a.bad && w.runs[a.run].script != []
        && (w.writes || !Changes(w.runs[a.run].script)) && !Needs(w.runs[a.run].script))
  }

  /** Runs stay one at a time exactly as long as none is set going while another executes; the check at the
      start of execute does not see to that, since the run waits for its tools and its prompt after it. */
  lemma SingleKept(w: World, a: Action)
    requires Inv(w) && Single(w)
    ensures Single(Step(w, a)) <==> !(Begins(w, a) && w.controller.Some?)
  {
    if Begins(w, a) { SingleStarts(w, a); } else if a.Gate? { SingleGated(w, a); } else { SingleElse(w, a); }
  }

  lemma SingleStarts(w: World, a: Action)
    requires Single(w) && Begins(w, a)
    ensures Single(Step(w, a)) <==> w.controller == None
  {
    hide Changes, Needs, Asked;
    var u := Step(w, a);
    assert u == Begin(w, a.run);
    if w.controller.Some? { assert u.runs[w.controller.value].phase.Running?; }
  }

  lemma SingleGated(w: World, a: Action)
    requires Inv(w) && Single(w) && a.Gate? && !Begins(w, a)
    ensures Single(Step(w, a))
  {
    hide Inv, Changes, Needs, Previews, Asked, Closed, Step;
    GateRunning(w, a);
    var u := Step(w, a);
    if u.controller.Some? { assert PhaseOf(w, u.controller.value).Running?; }
  }

  /** A gate that sets nothing going leaves the executing runs as they are. */
  lemma GateRunning(w: World, a: Action)
    requires Inv(w) && a.Gate? && !Begins(w, a)
    ensures var u := Step(w, a);
            u.controller == w.controller && u.runs.Keys == w.runs.Keys
            && forall id :: id in w.runs ==> u.runs[id].phase.Running? == w.runs[id].phase.Running?
  {
    var id := a.run;
    if PhaseOf(w, id) == Loading && id in w.runs {
      GateLeads(w, id, a.bad);
      ClosedRunning(w, false);
      hide Inv, Changes, Needs, Previews, Asked, Closed, GateOf;
    }
  }

  /** A gate ends its run, opens its prompt, or sets it going. */
  lemma GateLeads(w: World, id: nat, bad: bool)
    requires id in w.runs && w.runs[id].phase == Loading
    ensures var u := GateOf(w, id, bad);
            u == Put(w, id, Ended)
            || (id in Asked(w, OfRun(id)).runs && u == Put(Asked(w, OfRun(id)), id, Waiting).(sent := u.sent))
            || (u == Begin(w, id) && Begins(w, Gate(id, bad)))
  {
    hide AskOf, CloseOf, Changes, Needs, Previews;
    ClosedScripts(w, false);
  }

  lemma SingleElse(w: World, a: Action)
    requires Inv(w) && Single(w) && !a.Gate? && !Begins(w, a)
    ensures Single(Step(w, a))
  {
    match a
    case Answer(confirmed) =>
      ClosedRunning(w, confirmed);
      hide Inv, Asked, Closed;
    case OtherAsk(n) =>
      ClosedRunning(w, false);
      hide Inv, Asked, Closed;
    case _ => SingleRuns(w, a);
  }

  lemma SingleRuns(w: World, a: Action)
    requires Single(w) && !a.Gate? && !a.Answer? && !a.OtherAsk? && !Begins(w, a)
    ensures Single(Step(w, a))
  {
    hide Changes, Needs;
    var u := Step(w, a);
    if !a.Cancel? && !a.Start? && u != w {
      assert u.runs == w.runs[a.run := u.runs[a.run]];
      assert u.controller == w.controller
          || (u.controller == None && u.runs[a.run].phase == Ended && w.runs[a.run].phase.Running?);
      assert u.runs[a.run].phase.Running? ==> w.runs[a.run].phase.Running? && u.controller == w.controller;
    }
  }

  lemma ClosedRunning(w: World, confirmed: bool)
    requires Inv(w)
    ensures var u := Closed(w, confirmed);
            u.controller == w.controller && u.runs.Keys == w.runs.Keys && u.writes == w.writes && u.sent == w.sent
            && u.layer == CloseOf(w.layer, confirmed)
            && (forall id :: id in w.runs ==> u.runs[id].script == w.runs[id].script)
            && (forall id :: id in w.runs ==> u.runs[id].phase.Running? == w.runs[id].phase.Running?)
    ensures forall p :: Asked(w, p) == Closed(w, false).(layer := AskOf(w.layer, p))
  {
  }

  /** Two runs of one query each: both pass the check, both execute, and when the first ends, the Cancel
      button no longer reaches the second. */
  lemma TwoAtOnce(script: seq<Part>)
    requires |script| == 1 && script[0].intent == Select
    ensures var both := Step(Step(Step(Step(Initial(true, map[]), Start(0, script)), Start(1, script)), Gate(0, false)),
                             Gate(1, false));
            PhaseOf(both, 0) == Running(0, false) == PhaseOf(both, 1)
            && var late := Step(Step(Step(both, Send(0)), Reply(0, true)), Finish(0));
               PhaseOf(late, 1) == Running(0, false) && Step(late, Cancel) == late
  {
    assert !Changes(script) && !Needs(script);
  }
}
