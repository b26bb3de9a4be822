/** What the page says a kill interrupted, against the prefix of the channel it received. */
module KillLanding {
  import opened Wrappers
  import opened ChaosTypes
  import opened ChaosStore
  import opened KillCampaign
  import opened KillInvariant
  import opened KillSafety
  import opened KillTheorems

  ghost predicate BeganBy(w: World, n: nat, s: nat) { exists k: nat :: k < n && Says(w, k, Message.Began(s)) }
  ghost predicate SettledBy(w: World, n: nat, s: nat) { exists k: nat :: k < n && Says(w, k, Message.Settled(s)) }

  ghost predicate BeginsRequest(w: World, k: nat, id: nat) {
    k < |w.hist| && w.hist[k].message.Request? && w.hist[k].message.id == id && w.hist[k].message.begin
  }

  ghost predicate EndsRequest(w: World, k: nat, id: nat) {
    k < |w.hist| && w.hist[k].message.Request? && w.hist[k].message.id == id && !w.hist[k].message.begin
  }

  /** A platform request that began among the first `n` messages and did not end among them. */
  ghost predicate OpenBy(w: World, n: nat, id: nat) {
    exists k: nat :: k < n && BeginsRequest(w, k, id) && forall j: nat :: k < j < n ==> !EndsRequest(w, j, id)
  }

  /** The page's notes say exactly what the received prefix says. */
  ghost predicate Noted(w: World) {
    && (forall s: nat :: s in w.view.began <==> BeganBy(w, w.view.received, s))
    && (forall s: nat :: s in w.view.settled <==> SettledBy(w, w.view.received, s))
    && (forall id: nat :: id in w.view.requests <==> OpenBy(w, w.view.received, id))
  }

  predicate Distinct(list: seq<Intent>) {
    list == [] || (Distinct(list[1..]) && forall x :: x in list[1..] ==> x.sequence != list[0].sequence)
  }

  /** Ends come after announcements, and no operation in flight has ended. */
  ghost predicate Ordered(w: World) {
    && (forall k: nat, s: nat :: Says(w, k, Done(s)) ==> 1 <= s <= |w.book| && w.book[s - 1].at < k)
    && (forall x :: x in w.view.inFlight ==> !DoneBy(w, w.view.received, x.sequence))
    && Distinct(w.view.inFlight)
  }

  /** Every announced operation is live or has ended; in serial mode it ends before the next is announced. */
  ghost predicate OneByOne(w: World) {
    && (forall j: nat :: j < |w.book| ==>
          Live(w, w.book[j].intent.sequence) || DoneBy(w, |w.hist|, w.book[j].intent.sequence))
    && (w.mode == Serial ==>
          forall i: nat, j: nat :: i < j < |w.book| ==> DoneBy(w, w.book[j].at, w.book[i].intent.sequence))
  }

  // ── Kept by every step ───────────────────────────────────────────────────────────────────────

  lemma PostNoted(w: World, v: World, m: Message)
    requires Noted(w) && Ordered(w) && Booked(w) && Observed(w) && Posting(w, v, m)
    requires m.Done? ==> 1 <= m.sequence <= |w.book|
    ensures Noted(v) && Ordered(v)
  {
    Claimed(w, v, m);
    var r := w.view.received;
    assert forall k: nat :: k < r ==> v.hist[k] == w.hist[k];
    assert forall k: nat, id :: k < r ==> (BeginsRequest(v, k, id) <==> BeginsRequest(w, k, id));
    assert forall k: nat, id :: k < r ==> (EndsRequest(v, k, id) <==> EndsRequest(w, k, id));
    SamePrefix(w, v, r);
    if m.Done? { assert Entered(w, m.sequence - 1); }
  }

  lemma SamePrefix(w: World, v: World, n: nat)
    requires n <= |w.hist| && n <= |v.hist| && forall k: nat :: k < n ==> v.hist[k] == w.hist[k]
    ensures forall s: nat :: BeganBy(v, n, s) <==> BeganBy(w, n, s)
    ensures forall s: nat :: SettledBy(v, n, s) <==> SettledBy(w, n, s)
    ensures forall s: nat :: DoneBy(v, n, s) <==> DoneBy(w, n, s)
    ensures forall id: nat :: OpenBy(v, n, id) <==> OpenBy(w, n, id)
  {
    OneWay(w, v, n);
    OneWay(v, w, n);
  }

  lemma OneWay(w: World, v: World, n: nat)
    requires n <= |w.hist| && n <= |v.hist| && forall k: nat :: k < n ==> v.hist[k] == w.hist[k]
    ensures forall s: nat :: BeganBy(w, n, s) ==> BeganBy(v, n, s)
    ensures forall s: nat :: SettledBy(w, n, s) ==> SettledBy(v, n, s)
    ensures forall s: nat :: DoneBy(w, n, s) ==> DoneBy(v, n, s)
    ensures forall id: nat :: OpenBy(w, n, id) ==> OpenBy(v, n, id)
  {
    forall s: nat | BeganBy(w, n, s) ensures BeganBy(v, n, s) {
      var k: nat :| k < n && Says(w, k, Message.Began(s));
      assert Says(v, k, Message.Began(s));
    }
    forall s: nat | SettledBy(w, n, s) ensures SettledBy(v, n, s) {
      var k: nat :| k < n && Says(w, k, Message.Settled(s));
      assert Says(v, k, Message.Settled(s));
    }
    forall s: nat | DoneBy(w, n, s) ensures DoneBy(v, n, s) {
      var k: nat :| k < n && Says(w, k, Done(s));
      assert Says(v, k, Done(s));
    }
    forall id: nat | OpenBy(w, n, id) ensures OpenBy(v, n, id) {
      var k: nat :| k < n && BeginsRequest(w, k, id) && forall j: nat :: k < j < n ==> !EndsRequest(w, j, id);
      assert BeginsRequest(v, k, id);
      assert forall j: nat :: k < j < n ==> (EndsRequest(v, j, id) <==> EndsRequest(w, j, id));
    }
  }

  /** One message more in the prefix. */
  lemma LongerPrefix(w: World, r: nat, m: Message, s: nat)
    requires r < |w.hist| && w.hist[r].message == m
    ensures BeganBy(w, r + 1, s) <==> BeganBy(w, r, s) || m == Message.Began(s)
    ensures SettledBy(w, r + 1, s) <==> SettledBy(w, r, s) || m == Message.Settled(s)
    ensures DoneBy(w, r + 1, s) <==> DoneBy(w, r, s) || m == Done(s)
  {
    assert Says(w, r, m);
    if BeganBy(w, r, s) { var k: nat :| k < r && Says(w, k, Message.Began(s)); assert k < r + 1; }
    if SettledBy(w, r, s) { var k: nat :| k < r && Says(w, k, Message.Settled(s)); assert k < r + 1; }
    if DoneBy(w, r, s) { var k: nat :| k < r && Says(w, k, Done(s)); assert k < r + 1; }
  }

  lemma LongerRequests(w: World, r: nat, m: Message, id: nat)
    requires r < |w.hist| && w.hist[r].message == m
    ensures OpenBy(w, r + 1, id) <==> (if m.Request? && m.id == id then m.begin else OpenBy(w, r, id))
  {
    if m.Request? && m.id == id {
      if m.begin {
        assert BeginsRequest(w, r, id);
      } else {
        assert EndsRequest(w, r, id) && !BeginsRequest(w, r, id);
      }
    } else {
      assert !BeginsRequest(w, r, id) && !EndsRequest(w, r, id);
      if OpenBy(w, r, id) {
        var k: nat :| k < r && BeginsRequest(w, k, id) && forall j: nat :: k < j < r ==> !EndsRequest(w, j, id);
        assert k < r + 1 && forall j: nat :: k < j < r + 1 ==> !EndsRequest(w, j, id);
      }
      if OpenBy(w, r + 1, id) {
        var k: nat :| k < r + 1 && BeginsRequest(w, k, id) && forall j: nat :: k < j < r + 1 ==> !EndsRequest(w, j, id);
        assert k < r;
      }
    }
  }

  lemma {:induction false} PutDistinct(list: seq<Intent>, i: Intent)
    requires Distinct(list)
    ensures Distinct(Put(list, i))
  {
    if list != [] && list[0].sequence != i.sequence {
      PutDistinct(list[1..], i);
      assert Put(list, i)[1..] == Put(list[1..], i);
    }
  }

  lemma {:induction false} DropDistinct(list: seq<Intent>, s: nat)
    requires Distinct(list)
    ensures Distinct(Drop(list, s))
  {
    if list != [] {
      DropDistinct(list[1..], s);
      if list[0].sequence != s { assert Drop(list, s)[1..] == Drop(list[1..], s); }
    }
  }

  /** What delivering the next message adds to the page's notes. */
  ghost predicate Notes(w: World, v: World, m: Message) {
    && Delivery(w, v, m)
    && v.view.began == w.view.began + (if m.Began? then {m.sequence} else {})
    && v.view.settled == w.view.settled + (if m.Settled? then {m.sequence} else {})
    && (forall id :: id in v.view.requests <==> (if m.Request? && m.id == id then m.begin else id in w.view.requests))
    && (Distinct(w.view.inFlight) ==> Distinct(v.view.inFlight))
    && (m.Done? ==> forall x :: x in v.view.inFlight ==> x.sequence != m.sequence)
  }

  lemma ReceiveNotes(u: View, mode: Mode, x: Numbered)
    ensures var v, m := Receive(u, mode, x).view, x.message;
      && v.began == u.began + (if m.Began? then {m.sequence} else {})
      && v.settled == u.settled + (if m.Settled? then {m.sequence} else {})
      && (forall id :: id in v.requests <==> (if m.Request? && m.id == id then m.begin else id in u.requests))
      && (Distinct(u.inFlight) ==> Distinct(v.inFlight))
      && (m.Done? ==> forall i :: i in v.inFlight ==> i.sequence != m.sequence)
  {
    var m := x.message;
    if m.Announce? && Distinct(u.inFlight) { PutDistinct(u.inFlight, m.intent); }
    if m.Done? && Distinct(u.inFlight) { DropDistinct(u.inFlight, m.sequence); }
  }

  lemma DeliverNotes(w: World)
    requires Numbering(w) && w.view.received < |w.hist|
    ensures Notes(w, Delivered(w), w.hist[w.view.received].message)
  {
    hide Distinct;
    DeliverShape(w);
    ReceiveNotes(w.view, w.mode, w.hist[w.view.received]);
  }

  lemma DeliverNoted(w: World, v: World, m: Message)
    requires Noted(w) && Notes(w, v, m)
    ensures Noted(v)
  {
    var r := w.view.received;
    SamePrefix(w, v, r + 1);
    forall s: nat ensures BeganBy(v, r + 1, s) <==> s in v.view.began { LongerPrefix(w, r, m, s); }
    forall s: nat ensures SettledBy(v, r + 1, s) <==> s in v.view.settled { LongerPrefix(w, r, m, s); }
    forall id: nat ensures OpenBy(v, r + 1, id) <==> id in v.view.requests { LongerRequests(w, r, m, id); }
  }

  lemma DeliverOrdered(w: World, v: World, m: Message)
    requires Booked(w) && Ordered(w) && Notes(w, v, m)
    ensures Ordered(v)
  {
    var r := w.view.received;
    SamePrefix(w, v, r + 1);
    DeliverSays(w, v, m);
    assert Says(w, r, m);
    forall x | x in v.view.inFlight ensures !DoneBy(v, r + 1, x.sequence) { LongerPrefix(w, r, m, x.sequence); }
  }

  /** The lanes' view: operations end exactly when they leave their lane. */
  lemma LanesOneByOne(w: World, v: World)
    requires OneByOne(w) && v.mode == w.mode && w.hist <= v.hist && v.book == w.book
    requires forall s: nat :: Live(w, s) ==> Live(v, s) || DoneBy(v, |v.hist|, s)
    requires forall j: nat :: j < |w.book| ==> w.book[j].at < |w.hist|
    ensures OneByOne(v)
  {
    forall n: nat, s: nat | n <= |w.hist| && DoneBy(w, n, s) ensures DoneBy(v, n, s) {
      var k: nat :| k < n && Says(w, k, Done(s));
      assert Says(v, k, Done(s));
    }
    forall s: nat | DoneBy(v, |w.hist|, s) ensures DoneBy(v, |v.hist|, s) {
      var k: nat :| k < |w.hist| && Says(v, k, Done(s));
    }
  }

  lemma AnnounceOneByOne(w: World, v: World, m: Message)
    requires OneByOne(w) && Booked(w) && Posting(w, v, m) && v.mode == w.mode && m.Announce?
    requires forall s: nat :: Live(w, s) ==> Live(v, s)
    requires Live(v, m.intent.sequence) && (w.mode == Serial ==> forall s: nat :: !Live(w, s))
    ensures OneByOne(v)
  {
    var n := |w.hist|;
    forall j: nat | j < |w.book| ensures w.book[j].at < n { assert Entered(w, j); }
    forall k: nat, s: nat | k <= n && DoneBy(w, k, s) ensures DoneBy(v, k, s) && DoneBy(v, n + 1, s) {
      var i: nat :| i < k && Says(w, i, Done(s));
      assert Says(v, i, Done(s));
    }
  }

  lemma PostOneByOne(w: World, p: Post)
    requires Numbering(w) && Booked(w) && Lanes(w) && OneByOne(w) && Ready(w) && May(w, p)
    ensures OneByOne(WorkerStep(w, p))
  {
    hide Lanes, OneByOne;
    var v, m := WorkerStep(w, p), MoveOf(w, p).message;
    forall j: nat | j < |w.book| ensures w.book[j].at < |w.hist| { assert Entered(w, j); }
    PostShape(w, p);
    if m.Announce? {
      if w.mode == Serial { IdleIsNotLive(w); }
      AnnounceOneByOne(w, v, m);
    } else {
      if m.Done? { assert Says(v, |w.hist|, m); }
      LanesOneByOne(w, v);
    }
  }

  lemma OtherOneByOne(w: World, a: Action)
    requires Booked(w) && OneByOne(w) && Enabled(w, a) && !a.Restart? && !a.Work?
    ensures OneByOne(Apply(w, a))
  {
    hide OneByOne, LogWork, Receive;
    forall j: nat | j < |w.book| ensures w.book[j].at < |w.hist| { assert Entered(w, j); }
    LanesOneByOne(w, Apply(w, a));
  }

  lemma IdleIsNotLive(w: World)
    requires !Busy(w.worker)
    ensures forall s: nat :: !Live(w, s)
  {
  }

  lemma StillNoted(w: World, v: World)
    requires Noted(w) && Ordered(w) && w.view.received <= |w.hist|
    requires v.hist == w.hist && v.book == w.book
    requires v.view == w.view.(hold := v.view.hold, armed := v.view.armed, faultArmed := v.view.faultArmed)
    ensures Noted(v) && Ordered(v)
  {
    SamePrefix(w, v, w.view.received);
    forall k: nat, s: nat | Says(v, k, Done(s)) ensures 1 <= s <= |v.book| && v.book[s - 1].at < k {
      assert Says(w, k, Done(s));
    }
  }

  lemma BeginNoted(mode: Mode, s: ChaosState, store: Store)
    ensures var w := Begin(mode, true, s, store); Noted(w) && Ordered(w) && OneByOne(w)
  {
  }

  lemma PostNotes(w: World, p: Post)
    requires Inv(w) && Noted(w) && Ordered(w) && OneByOne(w) && Ready(w) && May(w, p)
    ensures var v := WorkerStep(w, p); Noted(v) && Ordered(v) && OneByOne(v)
  {
    hide Observed, Booked, Lanes, Gate, RootInv, LogInv, Noted, Ordered, OneByOne, MoveOf, May;
    PostOneByOne(w, p);
    PostShape(w, p);
    PostLive(w, p);
    PostNoted(w, WorkerStep(w, p), MoveOf(w, p).message);
  }

  lemma DeliverAll(w: World)
    requires Inv(w) && Noted(w) && Ordered(w) && Enabled(w, Deliver)
    ensures Noted(Delivered(w)) && Ordered(Delivered(w))
  {
    hide Booked, Lanes, Gate, RootInv, LogInv, Noted, Ordered, Delivered;
    var m := w.hist[w.view.received].message;
    DeliverNotes(w);
    DeliverNoted(w, Delivered(w), m);
    DeliverOrdered(w, Delivered(w), m);
  }

  lemma RestartNoted(w: World, img: Image)
    requires Inv(w) && w.phase.Judged? && MayLeave(w.store, img)
    ensures var v := Restarted(w, img); Noted(v) && Ordered(v) && OneByOne(v)
  {
    hide Inv, Recover, Noted, Ordered, OneByOne, MayLeave;
    RestartedInv(w, img);
    InvClaimsFirst(w);
    var r := Recover(Some(w.phase.told), img);
    if r.Accepted? { BeginNoted(w.mode, r.state, r.store); }
  }

  lemma StepNoted(w: World, a: Action)
    requires Inv(w) && Noted(w) && Ordered(w) && OneByOne(w) && Enabled(w, a)
    ensures Noted(Apply(w, a)) && Ordered(Apply(w, a)) && OneByOne(Apply(w, a))
  {
    hide Numbering, Observed, Booked, Lanes, Gate, RootInv, LogInv, Noted, Ordered, OneByOne, WorkerStep, Delivered,
        Restarted, MayLeave, May;
    match a {
      case Work(p) => PostNotes(w, p);
      case Restart(img) => RestartNoted(w, img);
      case Deliver => OtherOneByOne(w, a); DeliverAll(w);
      case _ =>
        OtherOneByOne(w, a);
        ReceivedIsClaimed(w);
        StillNoted(w, Apply(w, a));
    }
  }

  lemma ReceivedIsClaimed(w: World) requires Observed(w) ensures w.view.received <= |w.hist| {}

  lemma {:induction false} RunNoted(start: World, actions: seq<Action>, w: World)
    requires Inv(start) && Noted(start) && Ordered(start) && OneByOne(start) && Reaches(start, actions, w)
    ensures Inv(w) && Noted(w) && Ordered(w) && OneByOne(w)
    decreases |actions|
  {
    if actions != [] {
      hide Inv, Noted, Ordered, OneByOne;
      StepInv(start, actions[0]);
      StepNoted(start, actions[0]);
      RunNoted(Apply(start, actions[0]), actions[1..], w);
    }
  }

  // ── The theorems ─────────────────────────────────────────────────────────────────────────────

  /** Serial mode: at most one operation is in flight, and it is the only one with a go whose end the page
      has not received. */
  lemma SerialHasOneInFlight(actions: seq<Action>, w: World)
    requires Reaches(Start(Serial, true), actions, w)
    ensures |w.view.inFlight| <= 1
    ensures forall s :: s in w.gos && !DoneBy(w, w.view.received, s) ==>
              w.view.inFlight != [] && w.view.inFlight[0].sequence == s
  {
    StartInv(Serial);
    BeginNoted(Serial, ChaosState(EMPTY_ROOT, 1, 0), Store(EMPTY_ROOT, Log(Some(1), None, [], 0)));
    RunNoted(Start(Serial, true), actions, w);
    RunMode(Start(Serial, true), actions, w);
    hide Booked, Gate, Ordered, OneByOne, Numbering, Observed, Lanes, RootInv, LogInv, Noted;
    AtMostOne(w);
  }

  lemma {:induction false} RunMode(start: World, actions: seq<Action>, w: World)
    requires Reaches(start, actions, w)
    ensures w.mode == start.mode
    decreases |actions|
  {
    if actions != [] { RunMode(Apply(start, actions[0]), actions[1..], w); }
  }

  lemma AtMostOne(w: World)
    requires Booked(w) && Gate(w) && Ordered(w) && OneByOne(w) && w.mode == Serial
    ensures |w.view.inFlight| <= 1
    ensures forall s :: s in w.gos && !DoneBy(w, w.view.received, s) ==>
              w.view.inFlight != [] && w.view.inFlight[0].sequence == s
  {
    var list := w.view.inFlight;
    if |list| > 1 {
      var x, y := list[0], list[1];
      assert y in list[1..] && x in list && y in list;
      if x.sequence < y.sequence { EarlierEnded(w, x, y); } else { EarlierEnded(w, y, x); }
    }
  }

  lemma EarlierEnded(w: World, x: Intent, y: Intent)
    requires Booked(w) && OneByOne(w) && w.mode == Serial
    requires x in w.view.inFlight && y in w.view.inFlight && x.sequence < y.sequence
    ensures DoneBy(w, w.view.received, x.sequence)
  {
    assert DoneBy(w, w.book[y.sequence - 1].at, x.sequence);
    var k: nat :| k < w.book[y.sequence - 1].at && Says(w, k, Done(x.sequence));
  }

  /** The landing label is the phase the received prefix shows of the operation it names. */
  lemma LandingIsObserved(mode: Mode, actions: seq<Action>, w: World)
    requires Reaches(Start(mode, true), actions, w)
    ensures var n := w.view.received;
      if w.view.inFlight == [] then LandingOf(w.view) == Between
      else
        var x := w.view.inFlight[0];
        !DoneBy(w, n, x.sequence) &&
        LandingOf(w.view) ==
          if !BeganBy(w, n, x.sequence) then Before(x.step)
          else if SettledBy(w, n, x.sequence) then Landing.After(x.step)
          else if exists id: nat :: OpenBy(w, n, id) then In(x.step)
          else Window(x.step)
  {
    StartInv(mode);
    BeginNoted(mode, ChaosState(EMPTY_ROOT, 1, 0), Store(EMPTY_ROOT, Log(Some(1), None, [], 0)));
    RunNoted(Start(mode, true), actions, w);
    hide Inv, Noted, Ordered, OneByOne, LandingOf;
    Labelled(w);
  }

  lemma Labelled(w: World)
    requires Noted(w) && Ordered(w)
    ensures var n := w.view.received;
      if w.view.inFlight == [] then LandingOf(w.view) == Between
      else
        var x := w.view.inFlight[0];
        !DoneBy(w, n, x.sequence) &&
        LandingOf(w.view) ==
          if !BeganBy(w, n, x.sequence) then Before(x.step)
          else if SettledBy(w, n, x.sequence) then Landing.After(x.step)
          else if exists id: nat :: OpenBy(w, n, id) then In(x.step)
          else Window(x.step)
  {
    var requests := w.view.requests;
    assert |requests| > 0 <==> exists id: nat :: OpenBy(w, w.view.received, id) by {
      if |requests| > 0 { var id :| id in requests; assert OpenBy(w, w.view.received, id); }
      if id: nat :| OpenBy(w, w.view.received, id) { assert id in requests; }
    }
    if w.view.inFlight != [] { assert w.view.inFlight[0] in w.view.inFlight; }
  }
}
