/** The burst of write scopes over one shared counter (packages/core/browser/write-scope-admission-run.ts): tabs
    with workers and one SQL transaction each, every read-modify-write inside a writer turn. */
module WriteScopes {
  import opened Wrappers

  datatype Work = Scope(tab: nat, table: nat) | Sql(tab: nat)

  datatype Phase =
    | Idle
    | Queued(work: Work)
    | Inside(work: Work, before: int, seen: nat)  // has read the counter, at version `seen`
    | Committed(work: Work, before: int)          // published; the result not yet pushed
    | Done

  /** A worker takes tables from its tab; the tab's SQL transaction follows its last worker. */
  datatype Actor = Actor(tab: nat, sql: bool, phase: Phase)

  datatype Tab = Tab(remaining: seq<nat>, got: seq<int>)

  /** `locked`: one writer turn at a time. `validated`: a commit is refused when another came in between. */
  datatype Rules = Rules(locked: bool, validated: bool)

  datatype World = World(counter: int, version: nat, turn: Option<nat>, actors: seq<Actor>, tabs: seq<Tab>,
                         entered: multiset<Work>, committed: multiset<Work>, conflicts: nat)

  datatype Action = Take(actor: nat) | Enter(actor: nat) | Commit(actor: nat) | Push(actor: nat)

  predicate WorkersDone(w: World, tab: nat) {
    forall i :: 0 <= i < |w.actors| && w.actors[i].tab == tab && !w.actors[i].sql ==> w.actors[i].phase == Done
  }

  predicate Enabled(r: Rules, w: World, a: Action) {
    a.actor < |w.actors|
    && var actor := w.actors[a.actor];
       actor.tab < |w.tabs|
       && match a
          case Take(_) => actor.phase == Idle && (actor.sql ==> WorkersDone(w, actor.tab))
          case Enter(_) => actor.phase.Queued? && (r.locked ==> w.turn == None)
          case Commit(_) => actor.phase.Inside?
          case Push(_) => actor.phase.Committed?
  }

  function Set(w: World, i: nat, phase: Phase): World
    requires i < |w.actors|
  {
    w.(actors := w.actors[i := w.actors[i].(phase := phase)])
  }

  function Step(r: Rules, w: World, a: Action): (u: World)
    requires a.actor < |w.actors| && w.actors[a.actor].tab < |w.tabs|
    requires a.Enter? ==> w.actors[a.actor].phase.Queued?
    requires a.Commit? ==> w.actors[a.actor].phase.Inside?
    requires a.Push? ==> w.actors[a.actor].phase.Committed?
    ensures |u.actors| == |w.actors| && |u.tabs| == |w.tabs|
  {
    var i := a.actor;
    var actor := w.actors[i];
    var tab := w.tabs[actor.tab];
    match a
    case Take(_) =>
      if actor.sql then Set(w, i, Queued(Sql(actor.tab)))
      else if tab.remaining == [] then Set(w, i, Done)
      else Set(w, i, Queued(Scope(actor.tab,
          tab.remaining[0]))).(tabs := w.tabs[actor.tab := tab.(remaining := tab.remaining[1..])])
    case Enter(_) =>
      Set(w, i, Inside(actor.phase.work, w.counter, w.version))
        .(turn := Some(i), entered := w.entered + multiset{actor.phase.work})
    case Commit(_) =>
      if r.validated && actor.phase.seen != w.version then Set(w, i, Done).(turn := None, conflicts := w.conflicts + 1)
      else Set(w, i, Committed(actor.phase.work, actor.phase.before))
             .(counter := actor.phase.before + 1, version := w.version + 1, turn := None,
               committed := w.committed + multiset{actor.phase.work})
    case Push(_) =>
      Set(w, i, if actor.sql then Done else Idle)
        .(tabs := w.tabs[actor.tab := tab.(got := tab.got + [actor.phase.before])])
  }

  ghost predicate Reaches(r: Rules, w: World, actions: seq<Action>, u: World)
    decreases |actions|
  {
    if actions == [] then u == w
    else Enabled(r, w, actions[0]) && Reaches(r, Step(r, w, actions[0]), actions[1..], u)
  }

  // ── Counting ─────────────────────────────────────────────────────────────────────────────────

  function Sum(parts: seq<nat>): nat { if parts == [] then 0 else parts[0] + Sum(parts[1..]) }

  lemma {:induction false} SumUpdate(parts: seq<nat>, i: nat, part: nat)
    requires i < |parts|
    ensures Sum(parts[i := part]) + parts[i] == Sum(parts) + part
  {
    if i > 0 {
      SumUpdate(parts[1..], i - 1, part);
      assert parts[i := part][1..] == parts[1..][i - 1 := part];
    } else {
      assert parts[i := part][1..] == parts[1..];
    }
  }

  lemma {:induction false} SumZero(parts: seq<nat>)
    ensures Sum(parts) == 0 <==> forall i :: 0 <= i < |parts| ==> parts[i] == 0
  {
    if parts != [] { SumZero(parts[1..]); }
  }

  /** Whether an actor still owes `x`: its SQL transaction until committed, or the table in its hands. */
  function Owes(a: Actor, x: Work): nat {
    match a.phase
    case Idle => if a.sql && x == Sql(a.tab) then 1 else 0
    case Queued(work) => if x == work then 1 else 0
    case Inside(work, _, _) => if x == work then 1 else 0
    case _ => 0
  }

  /** Whether an actor is about to push `n`. */
  function Brings(a: Actor, n: int): nat { if a.phase.Committed? && a.phase.before == n then 1 else 0 }

  function Owing(actors: seq<Actor>, x: Work): seq<nat> {
    seq(|actors|, i requires 0 <= i < |actors| => Owes(actors[i], x))
  }

  function Bringing(actors: seq<Actor>, n: int): seq<nat> {
    seq(|actors|, i requires 0 <= i < |actors| => Brings(actors[i], n))
  }

  function Holding(tabs: seq<Tab>, n: int): seq<nat> {
    seq(|tabs|, t requires 0 <= t < |tabs| => multiset(tabs[t].got)[n])
  }

  function Owed(actors: seq<Actor>, x: Work): nat { Sum(Owing(actors, x)) }

  function Brought(actors: seq<Actor>, n: int): nat { Sum(Bringing(actors, n)) }

  function Left(tabs: seq<Tab>, x: Work): nat {
    if x.Scope? && x.tab < |tabs| then multiset(tabs[x.tab].remaining)[x.table] else 0
  }

  function Got(tabs: seq<Tab>, n: int): nat { Sum(Holding(tabs, n)) }

  /** How often `x` is to be done at the start of a burst: as often as it is owed or left. */
  function ToDo(w: World, x: Work): nat { Owed(w.actors, x) + Left(w.tabs, x) }

  ghost predicate Turns(w: World) {
    w.conflicts == 0 && w.counter == |w.committed|
    && (forall i :: 0 <= i < |w.actors| ==> w.actors[i].tab < |w.tabs|)
    && (forall i :: 0 <= i < |w.actors| && w.actors[i].phase.Inside? ==>
          w.turn == Some(i) && w.actors[i].phase.before == w.counter && w.actors[i].phase.seen == w.version)
    && (w.turn.Some? ==> w.turn.value < |w.actors| && w.actors[w.turn.value].phase.Inside?)
    && Entered(w)
  }

  ghost predicate Entered(w: World)
    requires w.turn.Some? ==> w.turn.value < |w.actors| && w.actors[w.turn.value].phase.Inside?
  {
    w.entered == w.committed + if w.turn.Some? then multiset{w.actors[w.turn.value].phase.work} else multiset{}
  }

  ghost predicate Worked(w: World, first: World, x: Work) {
    w.committed[x] + Owed(w.actors, x) + Left(w.tabs, x) == ToDo(first, x)
  }

  ghost predicate Numbered(w: World, n: int) {
    Brought(w.actors, n) + Got(w.tabs, n) == if 0 <= n < |w.committed| then 1 else 0
  }

  ghost predicate Inv(w: World, first: World) {
    Turns(w) && (forall x :: Worked(w, first, x)) && (forall n: int :: Numbered(w, n)) && Drained(w)
        && SameCrew(w, first)
  }

  ghost predicate SameCrew(w: World, first: World) {
    |w.actors| == |first.actors| && |w.tabs| == |first.tabs|
    && forall i :: 0 <= i < |w.actors| ==>
         w.actors[i].tab == first.actors[i].tab && w.actors[i].sql == first.actors[i].sql
  }

  /** A worker stops only once its tab has no table left, and none comes back; a transaction only starts then. */
  ghost predicate Drained(w: World) {
    forall i :: 0 <= i < |w.actors| && w.actors[i].tab < |w.tabs| && w.actors[i].phase == Done && !w.actors[i].sql
            ==> w.tabs[w.actors[i].tab].remaining == []
  }

  // ── One step keeps the counts ────────────────────────────────────────────────────────────────

  lemma ActorCounts(actors: seq<Actor>, i: nat, a: Actor, x: Work, n: int)
    requires i < |actors|
    ensures Owed(actors[i := a], x) + Owes(actors[i], x) == Owed(actors, x) + Owes(a, x)
    ensures Brought(actors[i := a], n) + Brings(actors[i], n) == Brought(actors, n) + Brings(a, n)
  {
    hide Sum;
    SumUpdate(Owing(actors, x), i, Owes(a, x));
    SumUpdate(Bringing(actors, n), i, Brings(a, n));
    assert Owing(actors[i := a], x) == Owing(actors, x)[i := Owes(a, x)];
    assert Bringing(actors[i := a], n) == Bringing(actors, n)[i := Brings(a, n)];
  }

  lemma TabCounts(tabs: seq<Tab>, t: nat, tab: Tab, n: int)
    requires t < |tabs|
    ensures Got(tabs[t := tab], n) + multiset(tabs[t].got)[n] == Got(tabs, n) + multiset(tab.got)[n]
  {
    hide Sum;
    SumUpdate(Holding(tabs, n), t, multiset(tab.got)[n]);
    assert Holding(tabs[t := tab], n) == Holding(tabs, n)[t := multiset(tab.got)[n]];
  }

  lemma StepWorked(r: Rules, w: World, a: Action, first: World, x: Work)
    requires Turns(w) && Enabled(r, w, a) && Worked(w, first, x)
    ensures Worked(Step(r, w, a), first, x)
  {
    var i, u := a.actor, Step(r, w, a);
    ActorCounts(w.actors, i, u.actors[i], x, 0);
    StepDebts(r, w, a, x);
    hide Owed, Step, Left, Owes, Turns;
  }

  /** A step moves a piece of work on: from its tab to a hand, or from a hand to the commits. */
  lemma StepDebts(r: Rules, w: World, a: Action, x: Work)
    requires Turns(w) && Enabled(r, w, a)
    ensures var i, u := a.actor, Step(r, w, a);
            u.actors == w.actors[i := u.actors[i]]
            && u.committed[x] + Owes(u.actors[i], x) + Left(u.tabs, x) == w.committed[x] + Owes(w.actors[i], x)
               + Left(w.tabs, x)
  {
    StepParts(r, w, a);
    if a.Take? { TakeLeft(r, w, a.actor, x); } else { LeftStays(r, w, a, x); }
    HandsOver(r, w, a, x);
    hide Turns, Left, Owes, Step;
  }

  lemma HandsOver(r: Rules, w: World, a: Action, x: Work)
    requires Turns(w) && Enabled(r, w, a)
    ensures var u := Step(r, w, a);
            if a.Take? then u.committed == w.committed
            else u.committed[x] + Owes(u.actors[a.actor], x) == w.committed[x] + Owes(w.actors[a.actor], x)
  {
    match a
    case Take(i) => hide Turns, Owes, Left;
    case Enter(i) => EnterHands(r, w, i, x);
    case Commit(i) => CommitHands(r, w, i, x);
    case Push(i) => PushHands(r, w, i, x);
  }

  lemma EnterHands(r: Rules, w: World, i: nat, x: Work)
    requires Enabled(r, w, Enter(i))
    ensures var u := Step(r, w, Enter(i)); u.committed == w.committed && Owes(u.actors[i], x) == Owes(w.actors[i], x)
  {
    var actor := w.actors[i];
    assert Step(r, w, Enter(i)).actors[i] == actor.(phase := Inside(actor.phase.work, w.counter, w.version));
  }

  lemma CommitHands(r: Rules, w: World, i: nat, x: Work)
    requires Turns(w) && Enabled(r, w, Commit(i))
    ensures var u := Step(r, w, Commit(i));
            u.committed[x] + Owes(u.actors[i], x) == w.committed[x] + Owes(w.actors[i], x)
  {
    var u, actor := Step(r, w, Commit(i)), w.actors[i];
    assert actor.phase.seen == w.version;
    hide Turns;
    assert u.actors[i] == actor.(phase := Committed(actor.phase.work, actor.phase.before));
    assert u.committed == w.committed + multiset{actor.phase.work};
    hide Step;
  }

  lemma PushHands(r: Rules, w: World, i: nat, x: Work)
    requires Enabled(r, w, Push(i))
    ensures var u := Step(r, w, Push(i)); u.committed == w.committed && Owes(u.actors[i], x) == Owes(w.actors[i], x)
  {
    var actor := w.actors[i];
    assert Step(r, w, Push(i)).actors[i] == actor.(phase := if actor.sql then Done else Idle);
  }

  lemma LeftStays(r: Rules, w: World, a: Action, x: Work)
    requires Turns(w) && Enabled(r, w, a) && !a.Take?
    ensures Left(Step(r, w, a).tabs, x) == Left(w.tabs, x)
  {
    hide Turns;
  }

  lemma TakeLeft(r: Rules, w: World, i: nat, x: Work)
    requires Turns(w) && Enabled(r, w, Take(i))
    ensures Owes(Step(r, w, Take(i)).actors[i], x) + Left(Step(r, w, Take(i)).tabs, x) == Owes(w.actors[i], x)
        + Left(w.tabs, x)
  {
    hide Turns;
    var left := w.tabs[w.actors[i].tab].remaining;
    assert left != [] ==> left == [left[0]] + left[1..];
  }

  lemma StepNumbered(r: Rules, w: World, a: Action, n: int)
    requires Turns(w) && Enabled(r, w, a) && Numbered(w, n)
    ensures Numbered(Step(r, w, a), n)
  {
    hide Brought, Got, Step, Turns;
    StepParts(r, w, a);
    var i, u := a.actor, Step(r, w, a);
    var t := w.actors[i].tab;
    ActorCounts(w.actors, i, u.actors[i], Sql(0), n);
    TabCounts(w.tabs, t, u.tabs[t], n);
  }

  /** What a step does to its actor, to that actor's tab and to the commits. */
  lemma StepParts(r: Rules, w: World, a: Action)
    requires Turns(w) && Enabled(r, w, a)
    ensures var u, actor := Step(r, w, a), w.actors[a.actor];
            u.actors == w.actors[a.actor := u.actors[a.actor]] && u.tabs == w.tabs[actor.tab := u.tabs[actor.tab]]
            && (if a.Push? then u.tabs[actor.tab].got == w.tabs[actor.tab].got + [actor.phase.before]
                else u.tabs[actor.tab].got == w.tabs[actor.tab].got)
            && (if a.Commit? then |u.committed| == |w.committed| + 1
               && u.actors[a.actor].phase == Committed(actor.phase.work, |w.committed|)
                else u.committed == w.committed && !u.actors[a.actor].phase.Committed?)
            && (actor.phase.Committed? <==> a.Push?)
  {
    StepCommits(r, w, a);
    hide Turns;
  }

  lemma StepCommits(r: Rules, w: World, a: Action)
    requires Turns(w) && Enabled(r, w, a)
    ensures var u, actor := Step(r, w, a), w.actors[a.actor];
            if a.Commit? then |u.committed| == |w.committed| + 1
              && u.actors[a.actor].phase == Committed(actor.phase.work, |w.committed|)
            else u.committed == w.committed && !u.actors[a.actor].phase.Committed?
  {
  }

  lemma StepTurns(r: Rules, w: World, a: Action)
    requires r.locked && Turns(w) && Enabled(r, w, a)
    ensures Turns(Step(r, w, a))
  {
    match a
    case Take(i) => SameTurn(w, Step(r, w, a), i);
    case Enter(i) => EnterTurns(r, w, i);
    case Commit(i) => CommitTurns(r, w, i);
    case Push(i) => SameTurn(w, Step(r, w, a), i);
  }

  lemma EnterTurns(r: Rules, w: World, i: nat)
    requires r.locked && Turns(w) && Enabled(r, w, Enter(i))
    ensures Turns(Step(r, w, Enter(i)))
  {
    StepEntered(r, w, Enter(i));
    hide Entered;
    var u := Step(r, w, Enter(i));
    assert forall j :: 0 <= j < |u.actors| && j != i ==> u.actors[j] == w.actors[j] && !w.actors[j].phase.Inside?;
  }

  lemma CommitTurns(r: Rules, w: World, i: nat)
    requires r.locked && Turns(w) && Enabled(r, w, Commit(i))
    ensures Turns(Step(r, w, Commit(i)))
  {
    StepEntered(r, w, Commit(i));
    hide Entered;
    var u := Step(r, w, Commit(i));
    assert forall j :: 0 <= j < |u.actors| && j != i ==> u.actors[j] == w.actors[j] && !w.actors[j].phase.Inside?;
  }

  lemma SameTurn(w: World, u: World, i: nat)
    requires Turns(w) && i < |w.actors| == |u.actors| && |u.tabs| == |w.tabs|
    requires u.actors[i].tab == w.actors[i].tab && !u.actors[i].phase.Inside? && !w.actors[i].phase.Inside?
    requires forall j :: 0 <= j < |u.actors| && j != i ==> u.actors[j] == w.actors[j]
    requires u == w.(actors := u.actors, tabs := u.tabs)
    ensures Turns(u)
  {
  }

  lemma StepEntered(r: Rules, w: World, a: Action)
    requires r.locked && Turns(w) && Enabled(r, w, a) && (a.Enter? || a.Commit?)
    ensures var u := Step(r, w, a);
            (if a.Enter? then u.turn == Some(a.actor) else u.turn == None)
            && Entered(u) && |u.committed| == |w.committed| + if a.Commit? then 1 else 0
  {
  }

  lemma StepInv(r: Rules, w: World, a: Action, first: World)
    requires r.locked && Inv(w, first) && Enabled(r, w, a)
    ensures Inv(Step(r, w, a), first)
  {
    var u := Step(r, w, a);
    StepTurns(r, w, a);
    StepCrew(r, w, a, first);
    forall x ensures Worked(u, first, x) { StepWorked(r, w, a, first, x); }
    forall n: int ensures Numbered(u, n) { StepNumbered(r, w, a, n); }
    hide Worked, Numbered, Turns, Drained, SameCrew, Step;
  }

  lemma StepCrew(r: Rules, w: World, a: Action, first: World)
    requires Turns(w) && Drained(w) && SameCrew(w, first) && Enabled(r, w, a)
    ensures Drained(Step(r, w, a)) && SameCrew(Step(r, w, a), first)
  {
    var u, t := Step(r, w, a), w.actors[a.actor].tab;
    assert u.actors[a.actor].tab == t && u.actors[a.actor].sql == w.actors[a.actor].sql;
    assert u.actors == w.actors[a.actor := u.actors[a.actor]] && u.tabs == w.tabs[t := u.tabs[t]];
    assert w.tabs[t].remaining == [] ==> u.tabs[t].remaining == [];
    assert u.actors[a.actor].phase == Done && !u.actors[a.actor].sql ==> u.tabs[t].remaining == [];
  }

  lemma {:induction false} RunInv(r: Rules, w: World, actions: seq<Action>, u: World, first: World)
    requires r.locked && Inv(w, first) && Reaches(r, w, actions, u)
    ensures Inv(u, first)
    decreases |actions|
  {
    if actions != [] {
      StepInv(r, w, actions[0], first);
      RunInv(r, Step(r, w, actions[0]), actions[1..], u, first);
    }
  }

  // ── A burst from start to end ────────────────────────────────────────────────────────────────

  /** Nobody has started; each tab has a worker at least. */
  ghost predicate Ready(w: World) {
    w.counter == 0 && w.turn == None && w.entered == multiset{} == w.committed && w.conflicts == 0
    && (forall i :: 0 <= i < |w.actors| ==> w.actors[i].phase == Idle && w.actors[i].tab < |w.tabs|)
    && (forall t :: 0 <= t < |w.tabs| ==> w.tabs[t].got == [] && Manned(w, t))
  }

  ghost predicate Manned(w: World, t: nat) {
    exists i :: 0 <= i < |w.actors| && w.actors[i].tab == t && !w.actors[i].sql
  }

  ghost predicate Over(w: World) { forall i :: 0 <= i < |w.actors| ==> w.actors[i].phase == Done }

  lemma ReadyInv(w: World)
    requires Ready(w)
    ensures Inv(w, w)
  {
    forall n: int ensures Numbered(w, n) {
      SumZero(Bringing(w.actors, n));
      SumZero(Holding(w.tabs, n));
    }
  }

  /** The tables of all tabs, then the transactions: what a burst is to do. */
  function Tables(tab: nat, tables: seq<nat>): seq<Work> {
    seq(|tables|, i requires 0 <= i < |tables| => Scope(tab, tables[i]))
  }

  function Plan(w: World): seq<Work> { TabPlan(w.tabs) + SqlPlan(w.actors) }

  function TabPlan(tabs: seq<Tab>): seq<Work> {
    if tabs == [] then [] else TabPlan(tabs[..|tabs| - 1]) + Tables(|tabs| - 1, tabs[|tabs| - 1].remaining)
  }

  function SqlPlan(actors: seq<Actor>): seq<Work> {
    if actors == [] then [] else (if actors[0].sql then [Sql(actors[0].tab)] else []) + SqlPlan(actors[1..])
  }

  /** What the tabs report together. */
  function Reports(tabs: seq<Tab>): seq<int> { if tabs == [] then [] else tabs[0].got + Reports(tabs[1..]) }

  function UpTo(n: nat): seq<int> { if n == 0 then [] else UpTo(n - 1) + [n - 1] }

  lemma {:induction false} TableCount(tab: nat, tables: seq<nat>, x: Work)
    ensures multiset(Tables(tab, tables))[x] == if x.Scope? && x.tab == tab then multiset(tables)[x.table] else 0
  {
    if tables != [] {
      var last := |tables| - 1;
      TableCount(tab, tables[..last], x);
      assert Tables(tab, tables) == Tables(tab, tables[..last]) + [Scope(tab, tables[last])];
      assert tables == tables[..last] + [tables[last]];
    }
  }

  lemma {:induction false} TabPlanCount(tabs: seq<Tab>, x: Work)
    ensures multiset(TabPlan(tabs))[x] == Left(tabs, x)
  {
    if tabs != [] {
      TabPlanCount(tabs[..|tabs| - 1], x);
      TableCount(|tabs| - 1, tabs[|tabs| - 1].remaining, x);
    }
  }

  lemma {:induction false} SqlPlanCount(actors: seq<Actor>, x: Work)
    requires forall i :: 0 <= i < |actors| ==> actors[i].phase == Idle
    ensures multiset(SqlPlan(actors))[x] == Owed(actors, x)
  {
    if actors != [] {
      SqlPlanCount(actors[1..], x);
      assert Owing(actors, x)[1..] == Owing(actors[1..], x);
    }
  }

  lemma {:induction false} ReportCount(tabs: seq<Tab>, n: int)
    ensures multiset(Reports(tabs))[n] == Got(tabs, n)
  {
    if tabs != [] {
      ReportCount(tabs[1..], n);
      assert Holding(tabs, n)[1..] == Holding(tabs[1..], n);
    }
  }

  lemma {:induction false} UpToCount(n: nat, k: int)
    ensures multiset(UpTo(n))[k] == (if 0 <= k < n then 1 else 0) && |UpTo(n)| == n
  {
    if n > 0 { UpToCount(n - 1, k); }
  }

  /** Under the lock a burst that is over has entered and committed each planned scope and transaction exactly
      once, without a conflict; the counter is their number; and what the tabs report is 0 to N - 1, each once. */
  lemma BurstCounts(r: Rules, w: World, actions: seq<Action>, u: World)
    requires r.locked && Ready(w) && Reaches(r, w, actions, u) && Over(u)
    ensures u.conflicts == 0 && u.entered == u.committed == multiset(Plan(w))
    ensures u.counter == |Plan(w)|
    ensures multiset(Reports(u.tabs)) == multiset(UpTo(|Plan(w)|))
  {
    ReadyInv(w);
    RunInv(r, w, actions, u, w);
    OverCounts(u, w);
  }

  lemma OverCounts(u: World, w: World)
    requires Ready(w) && Inv(u, w) && Over(u)
    ensures u.conflicts == 0 && u.entered == u.committed == multiset(Plan(w))
    ensures u.counter == |Plan(w)|
    ensures multiset(Reports(u.tabs)) == multiset(UpTo(|Plan(w)|))
  {
    hide Plan, Reports, UpTo;
    AllDone(u, w);
    hide Inv, Ready, Over;
    forall x ensures u.committed[x] == multiset(Plan(w))[x] { EachOnce(w, u, x); }
    assert u.committed == multiset(Plan(w));
    forall n: int ensures multiset(Reports(u.tabs))[n] == multiset(UpTo(|u.committed|))[n] { EachNumberOnce(w, u, n); }
    assert multiset(Reports(u.tabs)) == multiset(UpTo(|u.committed|));
  }

  lemma AllDone(u: World, w: World)
    requires Inv(u, w) && Over(u)
    ensures u.conflicts == 0 && u.entered == u.committed && u.counter == |u.committed|
  {
  }

  lemma EachNumberOnce(w: World, u: World, n: int)
    requires Inv(u, w) && Over(u)
    ensures multiset(Reports(u.tabs))[n] == multiset(UpTo(|u.committed|))[n]
  {
    assert Numbered(u, n);
    SumZero(Bringing(u.actors, n));
    ReportCount(u.tabs, n);
    UpToCount(|u.committed|, n);
  }

  lemma EachOnce(w: World, u: World, x: Work)
    requires Ready(w) && Inv(u, w) && Over(u)
    ensures u.committed[x] == multiset(Plan(w))[x]
  {
    hide Turns, Numbered, Sum;
    assert Worked(u, w, x);
    SumZero(Owing(u.actors, x));
    TabPlanCount(w.tabs, x);
    SqlPlanCount(w.actors, x);
    if x.Scope? && x.tab < |w.tabs| {
      assert Manned(w, x.tab);
      var i :| 0 <= i < |w.actors| && w.actors[i].tab == x.tab && !w.actors[i].sql;
      assert u.actors[i].phase == Done;
    }
  }

  /** Under the lock nobody waits for ever on nothing: until the burst is over some step can be taken. */
  lemma NeverStuck(r: Rules, w: World, first: World)
    requires Inv(w, first) && !Over(w)
    ensures exists a :: Enabled(r, w, a)
  {
    var i :| 0 <= i < |w.actors| && w.actors[i].phase != Done;
    if w.actors[i].phase == Idle && w.actors[i].sql && !WorkersDone(w, w.actors[i].tab) {
      var j :| 0 <= j < |w.actors| && w.actors[j].tab == w.actors[i].tab && !w.actors[j].sql
          && w.actors[j].phase != Done;
      CanMove(r, w, first, j);
    } else {
      CanMove(r, w, first, i);
    }
  }

  lemma CanMove(r: Rules, w: World, first: World, i: nat)
    requires Inv(w, first) && i < |w.actors| && w.actors[i].phase != Done
    requires w.actors[i].phase == Idle && w.actors[i].sql ==> WorkersDone(w, w.actors[i].tab)
    ensures exists a :: Enabled(r, w, a)
  {
    match w.actors[i].phase
    case Idle => assert Enabled(r, w, Take(i));
    case Queued(_) => if w.turn == None { assert Enabled(r, w, Enter(i)); }
        else { assert Enabled(r, w, Commit(w.turn.value)); }
    case Inside(_, _, _) => assert Enabled(r, w, Commit(i));
    case Committed(_, _) => assert Enabled(r, w, Push(i));
  }

  // ── The burst itself ─────────────────────────────────────────────────────────────────────────

  /** The shared counter row and the tabs' arrays; `Run` interleaves the actors as a schedule says. */
  class Burst {
    const rules: Rules
    var counter: int
    var version: nat
    var turn: Option<nat>
    var actors: seq<Actor>
    var tabs: seq<Tab>
    var conflicts: nat
    ghost var entered: multiset<Work>
    ghost var committed: multiset<Work>

    ghost function State(): World
      reads this
    {
      World(counter, version, turn, actors, tabs, entered, committed, conflicts)
    }

    constructor (rules: Rules, workers: seq<Actor>, tabs: seq<Tab>)
      ensures this.rules == rules
      ensures State() == World(0, 0, None, workers, tabs, multiset{}, multiset{}, 0)
    {
      this.rules := rules;
      counter, version, turn, conflicts := 0, 0, None, 0;
      actors, this.tabs := workers, tabs;
      entered, committed := multiset{}, multiset{};
    }

    /** Shifts a table off the tab's array, or stops; a transaction just takes its place in the queue. */
    method Take(i: nat)
      requires Enabled(rules, State(), Action.Take(i))
      modifies this
      ensures State() == Step(rules, old(State()), Action.Take(i))
    {
      var t := actors[i].tab;
      if actors[i].sql {
        actors := actors[i := actors[i].(phase := Queued(Sql(t)))];
      } else if tabs[t].remaining == [] {
        actors := actors[i := actors[i].(phase := Done)];
      } else {
        var table := tabs[t].remaining[0];
        tabs := tabs[t := tabs[t].(remaining := tabs[t].remaining[1..])];
        actors := actors[i := actors[i].(phase := Queued(Scope(t, table)))];
      }
    }

    /** The scope's callback starts and reads the counter. */
    method Enter(i: nat)
      requires Enabled(rules, State(), Action.Enter(i))
      modifies this
      ensures State() == Step(rules, old(State()), Action.Enter(i))
    {
      var work := actors[i].phase.work;
      turn := Some(i);
      entered := entered + multiset{work};
      actors := actors[i := actors[i].(phase := Inside(work, counter, version))];
    }

    /** The scope publishes the counter it computed from what it read. */
    method Commit(i: nat)
      requires Enabled(rules, State(), Action.Commit(i))
      modifies this
      ensures State() == Step(rules, old(State()), Action.Commit(i))
    {
      var Inside(work, before, seen) := actors[i].phase;
      turn := None;
      if rules.validated && seen != version {
        conflicts := conflicts + 1;
        actors := actors[i := actors[i].(phase := Done)];
        return;
      }
      counter := before + 1;
      version := version + 1;
      committed := committed + multiset{work};
      actors := actors[i := actors[i].(phase := Committed(work, before))];
    }

    method Push(i: nat)
      requires Enabled(rules, State(), Action.Push(i))
      modifies this
      ensures State() == Step(rules, old(State()), Action.Push(i))
    {
      var t := actors[i].tab;
      tabs := tabs[t := tabs[t].(got := tabs[t].got + [actors[i].phase.before])];
      actors := actors[i := actors[i].(phase := if actors[i].sql then Done else Idle)];
    }

    /** Any schedule; what cannot be done when its moment comes is passed over. */
    method Run(schedule: seq<Action>)
      requires rules.locked && Ready(State())
      modifies this
      ensures Inv(State(), old(State()))
      ensures Over(State()) ==> conflicts == 0 && committed == entered == multiset(Plan(old(State())))
      ensures Over(State()) ==> counter == |Plan(old(State()))|
      ensures Over(State()) ==> multiset(Reports(tabs)) == multiset(UpTo(|Plan(old(State()))|))
    {
      ghost var first := State();
      ReadyInv(first);
      for k := 0 to |schedule|
        invariant Inv(State(), first)
      {
        var a := schedule[k];
        if Enabled(rules, World(counter, version, turn, actors, tabs, multiset{}, multiset{}, conflicts), a) {
          StepInv(rules, State(), a, first);
          match a
          case Take(i) => Take(i);
          case Enter(i) => Enter(i);
          case Commit(i) => Commit(i);
          case Push(i) => Push(i);
        }
      }
      if Over(State()) { OverCounts(State(), first); }
    }
  }

  // ── Without the lock ─────────────────────────────────────────────────────────────────────────

  function TwoTabs(): World {
    World(0, 0, None, [Actor(0, false, Idle), Actor(1, false, Idle)], [Tab([7], []), Tab([8], [])], multiset{},
        multiset{}, 0)
  }

  /** Two scopes that cross: both have read the counter before either commits. */
  function Crossing(): seq<Action> { [Take(0), Take(1), Enter(0), Enter(1), Commit(0), Commit(1)] }

  /** Without the lock and without validation both commit and one increment is lost; with validation alone one of
      them is refused, and its table is not loaded. */
  lemma CrossingLoses(r: Rules) returns (u: World)
    requires !r.locked
    ensures Ready(TwoTabs()) && Reaches(r, TwoTabs(), Crossing(), u)
    ensures !r.validated ==> u.counter == 1 && |u.committed| == 2
    ensures r.validated ==> u.conflicts == 1 && Scope(1, 8) !in u.committed
  {
    hide Step, Enabled, Ready;
    var w := TwoTabs();
    TwoTabsReady();
    CrossingTakes(r);
    CrossingEnters(r);
    CrossingCommits(r);
    var v := OneCommitted();
    u := Step(r, v, Commit(1));
    var a := Step(r, w, Take(0));
    var c := Step(r, BothQueued(), Enter(0));
    Chain(r, v, Commit(1), u, [], u);
    Chain(r, BothInside(), Commit(0), v, [Commit(1)], u);
    Chain(r, c, Enter(1), BothInside(), [Commit(0), Commit(1)], u);
    Chain(r, BothQueued(), Enter(0), c, [Enter(1), Commit(0), Commit(1)], u);
    Chain(r, a, Take(1), BothQueued(), [Enter(0), Enter(1), Commit(0), Commit(1)], u);
    Chain(r, w, Take(0), a, [Take(1), Enter(0), Enter(1), Commit(0), Commit(1)], u);
    assert [Take(0)] + [Take(1), Enter(0), Enter(1), Commit(0), Commit(1)] == Crossing();
  }

  function BothQueued(): World {
    World(0, 0, None, [Actor(0, false, Queued(Scope(0, 7))), Actor(1, false, Queued(Scope(1, 8)))],
          [Tab([], []), Tab([], [])], multiset{}, multiset{}, 0)
  }

  function BothInside(): World {
    World(0, 0, Some(1), [Actor(0, false, Inside(Scope(0, 7), 0, 0)), Actor(1, false, Inside(Scope(1, 8), 0, 0))],
          [Tab([], []), Tab([], [])], multiset{Scope(0, 7), Scope(1, 8)}, multiset{}, 0)
  }

  function OneCommitted(): World {
    World(1, 1, None, [Actor(0, false, Committed(Scope(0, 7), 0)), Actor(1, false, Inside(Scope(1, 8), 0, 0))],
          [Tab([], []), Tab([], [])], multiset{Scope(0, 7), Scope(1, 8)}, multiset{Scope(0, 7)}, 0)
  }

  lemma CrossingCommits(r: Rules)
    ensures Enabled(r, BothInside(), Commit(0)) && Step(r, BothInside(), Commit(0)) == OneCommitted()
    ensures Enabled(r, OneCommitted(), Commit(1))
    ensures var u := Step(r, OneCommitted(), Commit(1));
            if r.validated then u.conflicts == 1 && Scope(1, 8) !in u.committed
            else u.counter == 1 && |u.committed| == 2
  {
  }

  lemma CrossingTakes(r: Rules)
    ensures Enabled(r, TwoTabs(), Take(0)) && Enabled(r, Step(r, TwoTabs(), Take(0)), Take(1))
    ensures Step(r, Step(r, TwoTabs(), Take(0)), Take(1)) == BothQueued()
  {
    assert [7][1..] == [] && [8][1..] == [];
  }

  lemma CrossingEnters(r: Rules)
    requires !r.locked
    ensures Enabled(r, BothQueued(), Enter(0)) && Enabled(r, Step(r, BothQueued(), Enter(0)), Enter(1))
    ensures Step(r, Step(r, BothQueued(), Enter(0)), Enter(1)) == BothInside()
  {
  }

  lemma TwoTabsReady()
    ensures Ready(TwoTabs())
  {
    var w := TwoTabs();
    assert w.actors[0].tab == 0 && !w.actors[0].sql && w.actors[1].tab == 1 && !w.actors[1].sql;
    assert Manned(w, 0) && Manned(w, 1);
  }

  lemma Chain(r: Rules, w: World, a: Action, v: World, rest: seq<Action>, u: World)
    requires Enabled(r, w, a) && Step(r, w, a) == v && Reaches(r, v, rest, u)
    ensures Reaches(r, w, [a] + rest, u)
  {
    assert ([a] + rest)[1..] == rest;
  }
}
