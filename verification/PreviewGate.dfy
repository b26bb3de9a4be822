/** Everything a console run sends, its preview count included (packages/devtools/src/console.ts, confirm.ts,
    statements.ts): which runs query before their prompt is answered, and which send nothing before a yes. */
module PreviewGate {
  import opened Wrappers
  import opened ConfirmGate

  /** All that one run sent, in order. */
  function AllBy(sent: seq<Sent>, id: nat): seq<Sent> {
    if sent == [] then []
    else AllBy(sent[..|sent| - 1], id) + if sent[|sent| - 1].run == id then [sent[|sent| - 1]] else []
  }

  function Statements(id: nat, parts: seq<Part>): seq<Sent> {
    seq(|parts|, i requires 0 <= i < |parts| => Statement(id, parts[i]))
  }

  /** The run's prompt was opened at some time. */
  ghost predicate WasAsked(w: World, id: nat) { id in w.runs && !Unused(w.layer, OfRun(id)) }

  ghost function Head(w: World, id: nat): seq<Sent> {
    if WasAsked(w, id) && Previews(w.runs[id].script) then [Preview(id)] else []
  }

  /** A run sends its preview when asked, if it has one, and then statements; it is asked only if it needs to be
      and may write. */
  ghost predicate Ordered(w: World, id: nat) {
    AllBy(w.sent, id) == Head(w, id) + Statements(id, SentBy(w.sent, id))
    && (WasAsked(w, id) ==> Needs(w.runs[id].script) && (w.writes || !Changes(w.runs[id].script)))
  }

  // ── One event keeps the order ────────────────────────────────────────────────────────────────

  lemma AllGrows(sent: seq<Sent>, x: Sent)
    ensures forall id :: AllBy(sent + [x], id) == AllBy(sent, id) + if x.run == id then [x] else []
  {
    assert (sent + [x])[..|sent|] == sent;
  }

  /** Closing the open prompt settles it; no other prompt is opened or settled. */
  lemma ClosedAsks(l: Layer, confirmed: bool)
    ensures forall p :: Unused(CloseOf(l, confirmed), p) <==> Unused(l, p)
  {
    var m := CloseOf(l, confirmed);
    if l.open.Some? { assert m.settled[|l.settled|].prompt == l.open.value; }
    assert forall i :: 0 <= i < |l.settled| ==> m.settled[i] == l.settled[i];
  }

  lemma AskedAsks(l: Layer, q: Prompt)
    ensures forall p :: Unused(AskOf(l, q), p) <==> Unused(l, p) && p != q
  {
    ClosedAsks(l, false);
    assert AskOf(l, q).settled == CloseOf(l, false).settled && CloseOf(l, false).open == None;
  }

  /** Nothing of this run was sent, and neither its script nor whether it was asked changed. */
  lemma OrderedStays(w: World, u: World, id: nat)
    requires Ordered(w, id) && u.writes == w.writes
    requires AllBy(u.sent, id) == AllBy(w.sent, id) && SentBy(u.sent, id) == SentBy(w.sent, id)
    requires WasAsked(u, id) == WasAsked(w, id)
    requires id in w.runs ==> id in u.runs && u.runs[id].script == w.runs[id].script
    ensures Ordered(u, id)
  {
  }

  /** What any event but a gate that asks leaves alone. */
  lemma StepLeaves(w: World, a: Action, id: nat)
    requires Inv(w) && !a.Gate?
    ensures var u := Step(w, a);
            u.writes == w.writes && WasAsked(u, id) == WasAsked(w, id)
            && (id in w.runs ==> id in u.runs && u.runs[id].script == w.runs[id].script)
            && (!a.Send? ==> u.sent == w.sent)
  {
    match a
    case Answer(confirmed) =>
      ClosedRunning(w, confirmed);
      ClosedAsks(w.layer, confirmed);
      hide Inv, Unused, CloseOf, Closed;
    case OtherAsk(n) =>
      ClosedRunning(w, false);
      AskedAsks(w.layer, Outside(n));
      hide Inv, Unused, AskOf, Asked, Closed;
    case _ => RunsLeave(w, a, id);
  }

  lemma RunsLeave(w: World, a: Action, id: nat)
    requires Inv(w) && !a.Gate? && !a.Answer? && !a.OtherAsk?
    ensures var u := Step(w, a);
            u.writes == w.writes && WasAsked(u, id) == WasAsked(w, id)
            && (id in w.runs ==> id in u.runs && u.runs[id].script == w.runs[id].script)
            && (!a.Send? ==> u.sent == w.sent)
  {
    assert id !in w.runs ==> Unused(w.layer, OfRun(id));
    hide Inv, Unused;
  }

  lemma SendOrdered(w: World, run: nat, id: nat)
    requires Inv(w) && Ordered(w, id)
    ensures Ordered(Step(w, Send(run)), id)
  {
    hide Inv, Step, SentBy, AllBy, Statements, Changes, Needs, Previews, Unused;
    StepLeaves(w, Send(run), id);
    SendShape(w, run);
    var u := Step(w, Send(run));
    if u.sent == w.sent { OrderedStays(w, u, id); } else { OneMore(w, u, run, u.sent[|w.sent|].part, id); }
  }

  lemma OneMore(w: World, u: World, run: nat, part: Part, id: nat)
    requires Ordered(w, id) && u.writes == w.writes && u.sent == w.sent + [Statement(run, part)]
    requires WasAsked(u, id) == WasAsked(w, id)
    requires id in w.runs ==> id in u.runs && u.runs[id].script == w.runs[id].script
    ensures Ordered(u, id)
  {
    hide SentBy, AllBy, Statements, Changes, Needs, Previews, Unused;
    SentGrows(w.sent, Statement(run, part));
    AllGrows(w.sent, Statement(run, part));
    StatementsGrow(id, SentBy(w.sent, id), part);
    assert Head(u, id) == Head(w, id);
    var parts := SentBy(w.sent, id);
    if run == id {
      assert Head(w, id) + Statements(id, parts) + [Statement(id, part)]
          == Head(w, id) + (Statements(id, parts) + [Statement(id, part)]);
    } else {
      assert parts + [] == parts && AllBy(w.sent, id) + [] == AllBy(w.sent, id);
    }
  }

  lemma SendShape(w: World, run: nat)
    ensures var u := Step(w, Send(run));
            u.sent != w.sent ==> |u.sent| == |w.sent| + 1 && u.sent[|w.sent|].Statement?
                                 && u.sent == w.sent + [Statement(run, u.sent[|w.sent|].part)]
  {
  }

  lemma StatementsGrow(id: nat, parts: seq<Part>, part: Part)
    ensures Statements(id, parts + [part]) == Statements(id, parts) + [Statement(id, part)]
  {
  }

  /** The gate opens this run's prompt. */
  ghost predicate GateAsking(w: World, run: nat, bad: bool) {
    run in w.runs && w.runs[run].phase == Loading && !bad && w.runs[run].script != []
    && (w.writes || !Changes(w.runs[run].script)) && Needs(w.runs[run].script)
  }

  lemma GateShape(w: World, run: nat, bad: bool)
    ensures var u := Step(w, Gate(run, bad));
            u.writes == w.writes
            && (forall id :: id in w.runs ==> id in u.runs && u.runs[id].script == w.runs[id].script)
            && (forall id :: id in u.runs ==> id in w.runs)
            && (if GateAsking(w, run, bad)
                then u.layer == AskOf(w.layer, OfRun(run))
                     && u.sent == w.sent + if Previews(w.runs[run].script) then [Preview(run)] else []
                else u.layer == w.layer && u.sent == w.sent)
  {
    hide AskOf, CloseOf, Changes, Needs, Previews;
  }

  lemma GateOrdered(w: World, run: nat, bad: bool, id: nat)
    requires Inv(w) && Ordered(w, id)
    ensures Ordered(Step(w, Gate(run, bad)), id)
  {
    var u := Step(w, Gate(run, bad));
    GateShape(w, run, bad);
    if !GateAsking(w, run, bad) {
      hide Step, Inv, AllBy, SentBy, Changes, Needs, Previews, Unused;
      OrderedStays(w, u, id);
    } else if id == run {
      AsksInOrder(w, run, u);
    } else {
      AskedAsks(w.layer, OfRun(run));
      AllGrows(w.sent, Preview(run));
      SentGrows(w.sent, Preview(run));
      hide Step, Inv, AskOf, Unused, AllBy, SentBy, Changes, Needs, Previews;
      OrderedStays(w, u, id);
    }
  }

  /** A run that is asked has sent nothing so far. */
  lemma AsksInOrder(w: World, run: nat, u: World)
    requires Inv(w) && Ordered(w, run) && GateAsking(w, run, false)
    requires run in u.runs && u.runs[run].script == w.runs[run].script && u.writes == w.writes
    requires u.layer == AskOf(w.layer, OfRun(run))
    requires u.sent == w.sent + if Previews(w.runs[run].script) then [Preview(run)] else []
    ensures Ordered(u, run)
  {
    NothingYet(w, run);
    AskedAsks(w.layer, OfRun(run));
    AllGrows(w.sent, Preview(run));
    SentGrows(w.sent, Preview(run));
    hide Inv, AskOf, Unused, AllBy, SentBy, Changes, Needs, Previews;
    assert u.sent == w.sent || u.sent == w.sent + [Preview(run)];
    assert Statements(run, []) == [];
  }

  lemma NothingYet(w: World, run: nat)
    requires Inv(w) && Ordered(w, run) && run in w.runs && w.runs[run].phase == Loading
    ensures AllBy(w.sent, run) == [] && SentBy(w.sent, run) == []
  {
    assert RunOk(w.writes, w.layer, run, w.runs[run], SentBy(w.sent, run));
  }

  lemma StepOrdered(w: World, a: Action, id: nat)
    requires Inv(w) && Ordered(w, id)
    ensures Ordered(Step(w, a), id)
  {
    match a
    case Gate(run, bad) => GateOrdered(w, run, bad, id);
    case Send(run) => SendOrdered(w, run, id);
    case _ =>
      StepLeaves(w, a, id);
      OrderedStays(w, Step(w, a), id);
  }

  // ── Over every run of events ─────────────────────────────────────────────────────────────────

  lemma {:induction false} AlwaysOrdered(writes: bool, inert: map<nat, bool>, actions: seq<Action>, id: nat)
    ensures Ordered(After(Initial(writes, inert), actions), id)
    decreases |actions|
  {
    if actions != [] {
      AlwaysInv(writes, inert, actions[..|actions| - 1]);
      AlwaysOrdered(writes, inert, actions[..|actions| - 1], id);
      StepOrdered(After(Initial(writes, inert), actions[..|actions| - 1]), actions[|actions| - 1], id);
    }
  }

  /** After any events, all a run has sent is its preview, if it was asked and has one, and then the start of its
      script. So a preview is sent exactly by the runs that were asked and have one, with writes on, and once each;
      and until its own prompt is answered yes a run that needs one has sent that preview and nothing else. */
  lemma SendsExactly(writes: bool, inert: map<nat, bool>, actions: seq<Action>, id: nat)
    ensures var w := After(Initial(writes, inert), actions);
            var all := AllBy(w.sent, id);
            all == Head(w, id) + Statements(id, SentBy(w.sent, id))
            && (Preview(id) in w.sent <==> WasAsked(w, id) && Previews(w.runs[id].script))
            && (Preview(id) in w.sent ==> writes && multiset(all)[Preview(id)] == 1)
            && (id in w.runs && Needs(w.runs[id].script) && !Confirmed(w.layer, id, true) ==> all == Head(w, id))
  {
    AlwaysInv(writes, inert, actions);
    AlwaysOrdered(writes, inert, actions, id);
    var w := After(Initial(writes, inert), actions);
    if id in w.runs { GateHolds(writes, inert, actions, id); }
    InAll(w.sent, Preview(id));
    hide After, Inv, AllBy, SentBy, Unused, Changes, Needs, LayerOk;
    if id in w.runs && Previews(w.runs[id].script) { PreviewsChange(w, id); }
    OnePreview(id, SentBy(w.sent, id));
    SilentStatements(id);
  }

  lemma SilentStatements(id: nat)
    ensures Statements(id, []) == []
  {
  }

  lemma PreviewsChange(w: World, id: nat)
    requires id in w.runs && Previews(w.runs[id].script)
    ensures Changes(w.runs[id].script)
  {
    assert ChangesData(w.runs[id].script[0].intent);
  }

  lemma {:induction false} InAll(sent: seq<Sent>, x: Sent)
    ensures x in sent <==> x in AllBy(sent, x.run)
  {
    if sent != [] {
      InAll(sent[..|sent| - 1], x);
      assert sent == sent[..|sent| - 1] + [sent[|sent| - 1]];
    }
  }

  lemma OnePreview(id: nat, parts: seq<Part>)
    ensures Preview(id) !in Statements(id, parts)
    ensures multiset([Preview(id)] + Statements(id, parts))[Preview(id)] == 1
  {
  }

  /** A run that needs confirmation sends nothing before its own yes, in every course of events, exactly when its
      script has no preview: the test its caller could make beforehand. */
  lemma SilentUntilYes(script: seq<Part>)
    requires Needs(script)
    ensures !Previews(script) <==> forall inert, actions, id :: SilentRun(script, inert, actions, id)
  {
    if !Previews(script) {
      forall inert, actions, id ensures SilentRun(script, inert, actions, id) {
        SendsExactly(true, inert, actions, id);
      }
    } else {
      AsksAtOnce(script);
      assert !SilentRun(script, map[], [Start(0, script), Gate(0, false)], 0);
    }
  }

  ghost predicate SilentRun(script: seq<Part>, inert: map<nat, bool>, actions: seq<Action>, id: nat) {
    var w := After(Initial(true, inert), actions);
    id in w.runs && w.runs[id].script == script && !Confirmed(w.layer, id, true) ==> AllBy(w.sent, id) == []
  }

  lemma AsksAtOnce(script: seq<Part>)
    requires Needs(script) && Previews(script)
    ensures var w := After(Initial(true, map[]), [Start(0, script), Gate(0, false)]);
            0 in w.runs && w.runs[0].script == script && !Confirmed(w.layer, 0, true)
                && AllBy(w.sent, 0) == [Preview(0)]
  {
    var start, actions := Initial(true, map[]), [Start(0, script), Gate(0, false)];
    assert actions[..1] == [Start(0, script)] && actions[..1][..0] == [];
    assert After(start, actions[..1]) == Step(start, Start(0, script));
    PreviewBeforeAnswer(start, 0, script);
    AllGrows([], Preview(0));
    assert [] + [Preview(0)] == [Preview(0)];
  }

  /** Whatever else goes on, with no run executing, a run that has a preview queries it as soon as it is asked, and
      its prompt is then still unanswered. */
  lemma PreviewBeforeAnswer(w: World, id: nat, script: seq<Part>)
    requires Inv(w) && id !in w.runs && w.controller == None && w.writes && Previews(script)
    ensures var u := Step(Step(w, Start(id, script)), Gate(id, false));
            u.sent == w.sent + [Preview(id)] && PhaseOf(u, id) == Waiting && u.layer.open == Some(OfRun(id))
            && forall confirmed :: !Confirmed(u.layer, id, confirmed)
  {
    assert ChangesData(script[0].intent) && NeedsConfirmation(script[0].intent);
    assert Needs(script);
    var v := Step(w, Start(id, script));
    GateShape(v, id, false);
    AskedAsks(w.layer, OfRun(id));
  }
}
