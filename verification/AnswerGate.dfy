/** Buttons, prompts and statements (packages/devtools/src/confirm.ts, console.ts): which event gave a run its answer,
    what a run that sent a statement was given, and that a run nobody disturbs sends its whole script. */
module AnswerGate {
  import opened Wrappers
  import opened ConfirmGate
  import opened PreviewGate

  /** The confirm button, pressed while this prompt was open. */
  ghost predicate Yes(start: World, actions: seq<Action>, k: nat, p: Prompt) {
    k < |actions| && actions[k] == Answer(true) && After(start, actions[..k]).layer.open == Some(p)
  }

  /** Cancel, Escape, the backdrop or a dismissal while this prompt was open, or another prompt in its place. */
  ghost predicate No(start: World, actions: seq<Action>, k: nat, p: Prompt) {
    k < |actions| && After(start, actions[..k]).layer.open == Some(p)
    && (actions[k] == Answer(false) || Replaces(After(start, actions[..k]), actions[k], p))
  }

  /** Another prompt is opened: a new one from outside the console, or that of another run. */
  ghost predicate Replaces(w: World, a: Action, p: Prompt) {
    || (a.OtherAsk? && !WasOpened(w.layer, Outside(a.number)))
    || (a.Gate? && OfRun(a.run) != p && GateAsking(w, a.run, a.bad))
  }

  // ── One event ────────────────────────────────────────────────────────────────────────────────

  /** The confirm button settles the open prompt with yes; an opposite answer or another prompt settles it with no;
      nothing else settles anything. */
  lemma StepSettles(w: World, a: Action)
    requires Inv(w)
    ensures var before, after := w.layer.settled, Step(w, a).layer.settled;
      if w.layer.open == None then after == before
      else if a == Answer(true) then after == before + [Settled(w.layer.open.value, true)]
      else if a == Answer(false) || Replaces(w, a, w.layer.open.value) then
        after == before + [Settled(w.layer.open.value, false)]
      else after == before
  {
    match a
    case Answer(confirmed) =>
      ClosedRunning(w, confirmed);
      hide Inv, Closed;
    case OtherAsk(n) =>
      ClosedRunning(w, false);
      hide Inv, Closed, Asked;
    case Gate(run, bad) =>
      GateShape(w, run, bad);
      AsksOnce(w, run, bad);
      hide Inv, Step, GateAsking, WasOpened;
    case _ => hide Inv;
  }

  /** A run whose own prompt is open is past its gate. */
  lemma AsksOnce(w: World, run: nat, bad: bool)
    requires Inv(w)
    ensures w.layer.open == Some(OfRun(run)) ==> !GateAsking(w, run, bad)
  {
  }

  lemma SettlesPrompt(w: World, a: Action, p: Prompt)
    requires Inv(w)
    ensures var before, after := w.layer.settled, Step(w, a).layer.settled;
      && (Settled(p, true) in after <==> Settled(p, true) in before || (w.layer.open == Some(p) && a == Answer(true)))
      && (Settled(p, false) in after <==>
            || Settled(p, false) in before
            || (w.layer.open == Some(p) && (a == Answer(false) || Replaces(w, a, p))))
  {
    StepSettles(w, a);
    hide Inv, Step, Replaces;
  }

  // ── Over every course of events ──────────────────────────────────────────────────────────────

  lemma Earlier(actions: seq<Action>, n: nat, k: nat)
    requires k <= n <= |actions|
    ensures actions[..n][..k] == actions[..k]
  {
  }

  lemma OneEventMore(start: World, actions: seq<Action>, p: Prompt)
    requires actions != []
    ensures var n := |actions| - 1;
      && ((exists k: nat :: Yes(start, actions, k, p)) <==>
            (exists k: nat :: Yes(start, actions[..n], k, p)) || Yes(start, actions, n, p))
      && ((exists k: nat :: No(start, actions, k, p)) <==>
            (exists k: nat :: No(start, actions[..n], k, p)) || No(start, actions, n, p))
  {
    hide After, Replaces;
    var n := |actions| - 1;
    forall k: nat | k < n
      ensures Yes(start, actions, k, p) <==> Yes(start, actions[..n], k, p)
      ensures No(start, actions, k, p) <==> No(start, actions[..n], k, p)
    {
      Earlier(actions, n, k);
    }
    if k: nat :| Yes(start, actions, k, p) && k != n { assert Yes(start, actions[..n], k, p); }
    if k: nat :| No(start, actions, k, p) && k != n { assert No(start, actions[..n], k, p); }
  }

  /** After any events, a prompt was settled with yes exactly when the confirm button was pressed while it was the
      open one, and with no exactly when it was cancelled or another prompt took its place. */
  lemma {:induction false} SettledExactly(writes: bool, inert: map<nat, bool>, actions: seq<Action>, p: Prompt)
    ensures var start := Initial(writes, inert);
      && (Settled(p, true) in After(start, actions).layer.settled <==> exists k: nat :: Yes(start, actions, k, p))
      && (Settled(p, false) in After(start, actions).layer.settled <==> exists k: nat :: No(start, actions, k, p))
    decreases |actions|
  {
    var start := Initial(writes, inert);
    if actions != [] {
      var n := |actions| - 1;
      SettledExactly(writes, inert, actions[..n], p);
      OneEventMore(start, actions, p);
      AlwaysInv(writes, inert, actions[..n]);
      hide Inv, Step, Replaces, Initial;
      SettlesPrompt(After(start, actions[..n]), actions[n], p);
    }
  }

  /** Some statement of the script changes data and, unless it is an `EXECUTE` that asked for none, needs a yes. */
  ghost predicate Grave(script: seq<Part>) {
    exists i :: 0 <= i < |script|
      && !script[i].intent.Select? && !script[i].intent.Session? && script[i].intent != Execute(false)
  }

  ghost predicate OnlyReads(script: seq<Part>) {
    forall i :: 0 <= i < |script| ==> script[i].intent.Select? || script[i].intent.Session?
  }

  /** What a run that sent a statement was given, whatever else happened: writes are on or its script only reads; and
      if the script needs a yes, the confirm button was pressed while the run's own prompt was the open one, the
      prompt was never cancelled or replaced, and nothing of the script had been sent by then. */
  lemma SentMeansAnswered(writes: bool, inert: map<nat, bool>, actions: seq<Action>, id: nat)
    requires id in After(Initial(writes, inert), actions).runs
    requires SentBy(After(Initial(writes, inert), actions).sent, id) != []
    ensures var start := Initial(writes, inert);
            var script := After(start, actions).runs[id].script;
      && (writes || OnlyReads(script))
      && (Grave(script) ==>
            && (exists k: nat :: Yes(start, actions, k, OfRun(id)) && SentBy(After(start, actions[..k]).sent, id) == [])
            && forall k: nat :: !No(start, actions, k, OfRun(id)))
  {
    var start := Initial(writes, inert);
    var script := After(start, actions).runs[id].script;
    GateHolds(writes, inert, actions, id);
    SettledExactly(writes, inert, actions, OfRun(id));
    if Grave(script) {
      assert Needs(script) by {
        var i :| 0 <= i < |script|
          && !script[i].intent.Select? && !script[i].intent.Session? && script[i].intent != Execute(false);
        assert NeedsConfirmation(script[i].intent);
      }
      var k: nat :| Yes(start, actions, k, OfRun(id));
      AlwaysInv(writes, inert, actions[..k]);
      WaitingIsSilent(After(start, actions[..k]), id);
      assert Yes(start, actions, k, OfRun(id)) && SentBy(After(start, actions[..k]).sent, id) == [];
    }
  }

  lemma WaitingIsSilent(w: World, id: nat)
    requires Inv(w) && w.layer.open == Some(OfRun(id))
    ensures SentBy(w.sent, id) == []
  {
    assert RunOk(w.writes, w.layer, id, w.runs[id], SentBy(w.sent, id));
  }

  /** A script with a statement that does not compile sends nothing, ever. */
  lemma BadScriptIsSilent(w: World, actions: seq<Action>, id: nat)
    requires Inv(w) && id in w.runs && w.runs[id].phase == Loading
    ensures SentBy(After(Step(w, Gate(id, true)), actions).sent, id) == []
  {
    assert RunOk(w.writes, w.layer, id, w.runs[id], SentBy(w.sent, id));
    var u := Step(w, Gate(id, true));
    StepInv(w, Gate(id, true));
    hide Inv, SentBy, RunOk;
    assert Quiet(u, id) && u.sent == w.sent;
    QuietSendsNothing(u, actions, id);
  }

  // ── A run nobody disturbs ────────────────────────────────────────────────────────────────────

  /** Each statement is sent when the one before it has succeeded. */
  function Turns(id: nat, n: nat): seq<Action> {
    if n == 0 then [] else Turns(id, n - 1) + [Send(id), Reply(id, true)]
  }

  /** One run from its start to its end, its prompt, if it has one, answered with yes. */
  function Whole(id: nat, script: seq<Part>): seq<Action> {
    [Start(id, script), Gate(id, false)] + (if Needs(script) then [Answer(true), Resume(id)] else [])
    + Turns(id, |script|) + [Finish(id)]
  }

  lemma {:induction false} AfterBoth(w: World, xs: seq<Action>, ys: seq<Action>)
    ensures After(w, xs + ys) == After(After(w, xs), ys)
    decreases |ys|
  {
    if ys == [] {
      assert xs + ys == xs;
    } else {
      var n := |ys| - 1;
      assert (xs + ys)[..|xs + ys| - 1] == xs + ys[..n];
      AfterBoth(w, xs, ys[..n]);
    }
  }

  lemma AfterTwo(w: World, a: Action, b: Action)
    ensures After(w, [a, b]) == Step(Step(w, a), b)
  {
    hide Step;
    assert [a, b][..1] == [a] && [a][..0] == [];
    assert After(w, [a]) == Step(w, a);
  }

  lemma OneTurn(w: World, id: nat)
    requires id in w.runs && w.runs[id].phase.Running? && !w.runs[id].phase.busy && id !in w.aborted
    requires w.runs[id].phase.next < |w.runs[id].script|
    ensures var u, next := Step(Step(w, Send(id)), Reply(id, true)), w.runs[id].phase.next;
      u == Put(w, id, Running(next + 1, false)).(sent := w.sent + [Statement(id, w.runs[id].script[next])])
  {
  }

  /** `n` turns after `w`. */
  ghost predicate Turned(w: World, u: World, id: nat, n: nat) {
    && id in w.runs && n <= |w.runs[id].script|
    && id in u.runs && u.runs[id] == w.runs[id].(phase := Running(n, false))
    && u.aborted == w.aborted && u.controller == w.controller
    && SentBy(u.sent, id) == SentBy(w.sent, id) + w.runs[id].script[..n]
  }

  lemma NextTurn(w: World, v: World, id: nat, n: nat)
    requires Turned(w, v, id, n) && n < |w.runs[id].script| && id !in w.aborted
    ensures Turned(w, Step(Step(v, Send(id)), Reply(id, true)), id, n + 1)
  {
    hide SentBy, Step;
    var script := w.runs[id].script;
    OneTurn(v, id);
    SentGrows(v.sent, Statement(id, script[n]));
    assert script[..n + 1] == script[..n] + [script[n]];
  }

  lemma TurnsGrow(w: World, id: nat, n: nat)
    ensures After(w, Turns(id, 0)) == w
    ensures After(w, Turns(id, n + 1)) == Step(Step(After(w, Turns(id, n)), Send(id)), Reply(id, true))
  {
    hide Step;
    AfterBoth(w, Turns(id, n), [Send(id), Reply(id, true)]);
    AfterTwo(After(w, Turns(id, n)), Send(id), Reply(id, true));
  }

  /** The loop over the statements, its next `n` turns. */
  lemma {:induction false} TurnsSend(w: World, id: nat, n: nat)
    requires id in w.runs && w.runs[id].phase == Running(0, false) && id !in w.aborted && n <= |w.runs[id].script|
    ensures Turned(w, After(w, Turns(id, n)), id, n)
  {
    hide Step, After, Turns, SentBy;
    TurnsGrow(w, id, if n > 0 then n - 1 else 0);
    if n > 0 {
      hide Turned;
      TurnsSend(w, id, n - 1);
      NextTurn(w, After(w, Turns(id, n - 1)), id, n - 1);
    }
  }

  lemma Gated(w: World, id: nat)
    requires Inv(w) && id in w.runs && w.runs[id].phase == Loading && w.controller == None
    requires w.runs[id].script != [] && (w.writes || !Changes(w.runs[id].script))
    ensures var u := Step(w, Gate(id, false));
      && id in u.runs && u.runs[id].script == w.runs[id].script && u.aborted == w.aborted && SentBy(u.sent, id) == []
      && (if Needs(w.runs[id].script) then u.runs[id].phase == Waiting && u.controller == None
          else u.runs[id].phase == Running(0, false) && u.controller == Some(id))
  {
    assert RunOk(w.writes, w.layer, id, w.runs[id], SentBy(w.sent, id));
    ClosedRunning(w, false);
    hide Inv, Changes, Needs, Previews, SentBy, RunOk, AskOf, CloseOf, Closed, Asked;
    SentGrows(w.sent, Preview(id));
  }

  /** With nothing executing, a script that may run passes its gate: to its prompt if it needs one. */
  lemma Gates(w: World, id: nat, script: seq<Part>)
    requires Inv(w) && id !in w.runs && w.controller == None && id !in w.aborted
    requires script != [] && (w.writes || !Changes(script))
    ensures var u := Step(Step(w, Start(id, script)), Gate(id, false));
      && Inv(u) && id in u.runs && u.runs[id].script == script && id !in u.aborted && SentBy(u.sent, id) == []
      && (if Needs(script) then u.runs[id].phase == Waiting && u.controller == None
          else u.runs[id].phase == Running(0, false) && u.controller == Some(id))
  {
    hide Inv, Changes, Needs, SentBy, GateOf;
    var v := Step(w, Start(id, script));
    StepInv(w, Start(id, script));
    StepInv(v, Gate(id, false));
    Gated(v, id);
  }

  lemma Resumed(w: World, id: nat)
    requires Inv(w) && id in w.runs && w.runs[id].phase == Waiting
    ensures var u := Step(Step(w, Answer(true)), Resume(id));
      && id in u.runs && u.runs[id] == w.runs[id].(phase := Running(0, false)) && u.controller == Some(id)
      && u.sent == w.sent && u.aborted == w.aborted
  {
    assert RunOk(w.writes, w.layer, id, w.runs[id], SentBy(w.sent, id));
    assert w.layer.open == Some(OfRun(id));
    hide Inv, SentBy, RunOk, CloseOf;
  }

  /** From its start, with a yes if it needs one, to its first turn. */
  lemma Opens(w: World, id: nat, script: seq<Part>)
    requires Inv(w) && id !in w.runs && w.controller == None && id !in w.aborted
    requires script != [] && (w.writes || !Changes(script))
    ensures var u := After(w, [Start(id, script), Gate(id, false)]
                              + if Needs(script) then [Answer(true), Resume(id)] else []);
      id in u.runs && u.runs[id] == Run(script, Running(0, false)) && id !in u.aborted && u.controller == Some(id)
      && SentBy(u.sent, id) == []
  {
    hide Inv, Step, Changes, Needs, SentBy;
    Gates(w, id, script);
    AfterTwo(w, Start(id, script), Gate(id, false));
    var v := After(w, [Start(id, script), Gate(id, false)]);
    if Needs(script) {
      AfterBoth(w, [Start(id, script), Gate(id, false)], [Answer(true), Resume(id)]);
      AfterTwo(v, Answer(true), Resume(id));
      Resumed(v, id);
    } else {
      assert [Start(id, script), Gate(id, false)] + [] == [Start(id, script), Gate(id, false)];
    }
  }

  lemma Finishes(w: World, x: World, id: nat)
    requires id in w.runs && Turned(w, x, id, |w.runs[id].script|) && SentBy(w.sent, id) == []
    ensures var u := After(x, [Finish(id)]);
      id in u.runs && u.runs[id] == Run(w.runs[id].script, Ended) && u.controller == None
      && SentBy(u.sent, id) == w.runs[id].script
  {
    hide SentBy;
    var script := w.runs[id].script;
    assert [Finish(id)][..0] == [];
    assert After(x, [Finish(id)]) == Step(x, Finish(id));
    assert script[..|script|] == script && [] + script == script;
  }

  /** A run that may write what it writes, with no other in its way, sends its whole script, in order, once its
      prompt is answered with yes, and ends. */
  lemma WholeScript(w: World, id: nat, script: seq<Part>)
    requires Inv(w) && id !in w.runs && w.controller == None && id !in w.aborted
    requires script != [] && (w.writes || !Changes(script))
    ensures var u := After(w, Whole(id, script));
      id in u.runs && u.runs[id] == Run(script, Ended) && u.controller == None && SentBy(u.sent, id) == script
  {
    hide Inv, Step, Changes, Needs, SentBy, Turned, After, Turns;
    var first := [Start(id, script), Gate(id, false)] + if Needs(script) then [Answer(true), Resume(id)] else [];
    Opens(w, id, script);
    var v := After(w, first);
    TurnsSend(v, id, |script|);
    Finishes(v, After(v, Turns(id, |script|)), id);
    AfterBoth(w, first, Turns(id, |script|));
    AfterBoth(w, first + Turns(id, |script|), [Finish(id)]);
  }
}
