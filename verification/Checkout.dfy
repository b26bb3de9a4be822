/** The exactly-once checkout (packages/core/browser/checkout-recovery.ts) over optimistic transactions:
    a scope reads one snapshot, stages its writes, and is refused at commit when a row it writes was
    committed by someone else since. Clients call, conflict, retry, and lose their worker at any point. */
module Checkout {
  import opened Wrappers

  datatype Details = Details(sku: int, qty: int, total: int)

  datatype Line = Line(sale: string, sku: int, qty: int)

  datatype Intent = Intent(details: Details, complete: bool)

  datatype Change = Change(sku: int, before: int, after: int)

  /** The keyed tables, and the audit table in insertion order. Also a scope's staged writes. */
  datatype Tables = Tables(stock: map<int, int>, sales: map<string, Details>, lines: map<string, Line>,
                           intents: map<string, Intent>, audit: seq<Change>)

  datatype Key = StockKey(sku: int) | SaleKey(id: string) | LineKey(id: string) | IntentKey(id: string)

  datatype Reason = NoDurableIntent | DifferentDetails

  datatype Verdict = Recorded | AlreadyRecorded | Refused(reason: Reason)

  const NOTHING := Tables(map[], map[], map[], map[], [])

  function Initial(): Tables { NOTHING.(stock := map[1 := 100]) }

  /** `t` with the staged writes of `u` over it. */
  function Over(t: Tables, u: Tables): Tables {
    Tables(t.stock + u.stock, t.sales + u.sales, t.lines + u.lines, t.intents + u.intents, t.audit + u.audit)
  }

  ghost predicate Has(t: Tables, key: Key) {
    match key
    case StockKey(sku) => sku in t.stock
    case SaleKey(id) => id in t.sales
    case LineKey(id) => id in t.lines
    case IntentKey(id) => id in t.intents
  }

  ghost predicate Same(t: Tables, u: Tables, key: Key) {
    Has(t, key) == Has(u, key)
    && match key
       case StockKey(sku) => sku in t.stock && sku in u.stock ==> t.stock[sku] == u.stock[sku]
       case SaleKey(id) => id in t.sales && id in u.sales ==> t.sales[id] == u.sales[id]
       case LineKey(id) => id in t.lines && id in u.lines ==> t.lines[id] == u.lines[id]
       case IntentKey(id) => id in t.intents && id in u.intents ==> t.intents[id] == u.intents[id]
  }

  function WrittenBySale(id: string): set<Key> { {StockKey(1), SaleKey(id), LineKey(id), IntentKey(id)} }

  // ── The body of the transaction ──────────────────────────────────────────────────────────────

  function VerdictOf(t: Tables, id: string, total: int): Verdict {
    if id !in t.intents then Refused(NoDurableIntent)
    else if t.intents[id].details != Details(1, 1, total) then Refused(DifferentDetails)
    else if id !in t.sales then Recorded
    else if t.sales[id] != Details(1, 1, total) then Refused(DifferentDetails)
    else AlreadyRecorded
  }

  /** What the scope stages: nothing, unless it records. */
  function StagedBy(t: Tables, id: string, total: int): Tables {
    if !VerdictOf(t, id, total).Recorded? then NOTHING
    else Tables(if 1 in t.stock then map[1 := t.stock[1] - 1] else map[],
                map[id := Details(1, 1, total)], map[id := Line(id, 1, 1)], map[id := t.intents[id].(complete := true)],
                if 1 in t.stock then [Change(1, t.stock[1], t.stock[1] - 1)] else [])
  }

  /** One write scope: a snapshot and the rows staged over it. */
  class Scope {
    const snapshot: Tables
    var staged: Tables

    constructor (snapshot: Tables)
      ensures this.snapshot == snapshot && staged == NOTHING
    {
      this.snapshot := snapshot;
      staged := NOTHING;
    }

    method InsertSale(id: string, details: Details)
      modifies this
      ensures staged == old(staged).(sales := old(staged).sales[id := details])
    {
      staged := staged.(sales := staged.sales[id := details]);
    }

    method InsertLine(id: string, line: Line)
      modifies this
      ensures staged == old(staged).(lines := old(staged).lines[id := line])
    {
      staged := staged.(lines := staged.lines[id := line]);
    }

    /** Takes one from a stock row, as the scope sees it; the trigger notes the change. */
    method TakeOne(sku: int)
      modifies this
      ensures var rows := Over(snapshot, old(staged)).stock;
              staged == if sku !in rows then old(staged)
                        else old(staged).(stock := old(staged).stock[sku := rows[sku] - 1],
                                          audit := old(staged).audit + [Change(sku, rows[sku], rows[sku] - 1)])
    {
      var rows := Over(snapshot, staged).stock;
      if sku in rows {
        staged := staged.(stock := staged.stock[sku := rows[sku] - 1],
                          audit := staged.audit + [Change(sku, rows[sku], rows[sku] - 1)]);
      }
    }

    method Complete(id: string)
      modifies this
      ensures var rows := Over(snapshot, old(staged)).intents;
              staged == if id !in rows then old(staged)
                        else old(staged).(intents := old(staged).intents[id := rows[id].(complete := true)])
    {
      var rows := Over(snapshot, staged).intents;
      if id in rows { staged := staged.(intents := staged.intents[id := rows[id].(complete := true)]); }
    }

    method RunSale(id: string, total: int) returns (verdict: Verdict)
      requires staged == NOTHING
      modifies this
      ensures verdict == VerdictOf(snapshot, id, total)
      ensures staged == StagedBy(snapshot, id, total)
    {
      if id !in snapshot.intents { return Refused(NoDurableIntent); }
      var intent := snapshot.intents[id].details;
      if intent.sku != 1 || intent.qty != 1 || intent.total != total { return Refused(DifferentDetails); }
      if id in snapshot.sales {
        var existing := snapshot.sales[id];
        if existing.sku != 1 || existing.qty != 1 || existing.total != total { return Refused(DifferentDetails); }
        return AlreadyRecorded;
      }
      InsertSale(id, Details(1, 1, total));
      InsertLine(id, Line(id, 1, 1));
      TakeOne(1);
      Complete(id);
      return Recorded;
    }
  }

  // ── Clients over one database ────────────────────────────────────────────────────────────────

  datatype Reply = Done(verdict: Verdict) | Conflict

  datatype Call = Call(id: string, total: int, attempt: nat)

  datatype Client =
    | Idle
    | Trying(call: Call)
    | Open(call: Call, snapshot: Tables, stale: set<Key>)  // `stale`: rows committed by others since
    | Replied(call: Call, reply: Reply)

  datatype Answer = Answer(client: nat, call: Call, reply: Reply)

  /** `order` and `answers` are history: the sales committed and the calls that returned, in order. */
  datatype World = World(tables: Tables, clients: map<nat, Client>, order: seq<string>, answers: seq<Answer>)

  datatype Action =
    | Save(id: string, details: Details)
    | Begin(client: nat, id: string, total: int)
    | Read(client: nat)
    | Commit(client: nat, refused: bool)  // a store may refuse more than it has to
    | Receive(client: nat)
    | Lose(client: nat)

  function Start(): World { World(Initial(), map[], [], []) }

  function At(w: World, c: nat): Client { if c in w.clients then w.clients[c] else Idle }

  function Set(w: World, c: nat, client: Client): World { w.(clients := w.clients[c := client]) }

  /** Every open scope now has these rows out of date. */
  function Outdate(clients: map<nat, Client>, keys: set<Key>): map<nat, Client> {
    map c | c in clients :: if clients[c].Open? then clients[c].(stale := clients[c].stale + keys) else clients[c]
  }

  function CommitOf(w: World, c: nat, refused: bool): World
    requires At(w, c).Open?
  {
    var Open(call, snapshot, stale) := At(w, c);
    var verdict := VerdictOf(snapshot, call.id, call.total);
    if !verdict.Recorded? then Set(w, c, Replied(call, Done(verdict)))
    else if refused || stale * WrittenBySale(call.id) != {} then Set(w, c, Replied(call, Conflict))
    else
      World(Over(w.tables, StagedBy(snapshot, call.id, call.total)),
            Outdate(w.clients, WrittenBySale(call.id))[c := Replied(call, Done(Recorded))],
            w.order + [call.id], w.answers)
  }

  const LAST_ATTEMPT: nat := 7

  function ReceiveOf(w: World, c: nat): World
    requires At(w, c).Replied?
  {
    var Replied(call, reply) := At(w, c);
    if reply.Conflict? && call.attempt < LAST_ATTEMPT then Set(w, c, Trying(call.(attempt := call.attempt + 1)))
    else Set(w, c, Idle).(answers := w.answers + [Answer(c, call, reply)])
  }

  /** One step; an action its client is not ready for changes nothing. */
  function Step(w: World, a: Action): World {
    match a
    case Save(id, details) =>
      if id in w.tables.intents then w  // the key is taken: the insert fails whole
      else w.(tables := w.tables.(intents := w.tables.intents[id := Intent(details, false)]),
              clients := Outdate(w.clients, {IntentKey(id)}))
    case Begin(c, id, total) => if At(w, c).Idle? then Set(w, c, Trying(Call(id, total, 0))) else w
    case Read(c) => if At(w, c).Trying? then Set(w, c, Open(At(w, c).call, w.tables, {})) else w
    case Commit(c, refused) => if At(w, c).Open? then CommitOf(w, c, refused) else w
    case Receive(c) => if At(w, c).Replied? then ReceiveOf(w, c) else w
    case Lose(c) => Set(w, c, Idle)
  }

  function Run(w: World, actions: seq<Action>): World
    decreases |actions|
  {
    if actions == [] then w else Step(Run(w, actions[..|actions| - 1]), actions[|actions| - 1])
  }

  // ── What holds after every run ───────────────────────────────────────────────────────────────

  /** The shop's books: `order` is the sales, each once; stock and audit count them down from 100. */
  ghost predicate Balanced(t: Tables, order: seq<string>) {
    (forall i, j :: 0 <= i < j < |order| ==> order[i] != order[j])
    && (forall id :: id in order <==> id in t.sales)
    && t.stock == map[1 := 100 - |order|]
    && |t.audit| == |order|
    && (forall i :: 0 <= i < |order| ==> t.audit[i] == Change(1, 100 - i, 99 - i))
    && t.sales.Keys == t.lines.Keys
    && forall id :: id in t.sales ==> SaleRows(t, id)
  }

  ghost predicate SaleRows(t: Tables, id: string)
    requires id in t.sales
  {
    t.sales[id].sku == 1 && t.sales[id].qty == 1
    && id in t.lines && t.lines[id] == Line(id, 1, 1)
    && id in t.intents && t.intents[id] == Intent(t.sales[id], true)
  }

  ghost predicate CompleteIffSold(t: Tables) {
    forall id :: id in t.intents ==> (t.intents[id].complete <==> id in t.sales)
  }

  ghost predicate Fresh(t: Tables, snapshot: Tables, stale: set<Key>) {
    forall key :: key !in stale ==> Same(snapshot, t, key)
  }

  ghost predicate ClientOk(t: Tables, client: Client) {
    match client
    case Idle => true
    case Trying(call) => call.attempt <= LAST_ATTEMPT
    case Open(call, snapshot, stale) => call.attempt <= LAST_ATTEMPT && Fresh(t, snapshot, stale) && Later(snapshot, t)
    case Replied(call, reply) => call.attempt <= LAST_ATTEMPT && TrueReply(t, call, reply)
  }

  /** A sale reported recorded, now or before, is there with the total the caller gave; one refused for its details
      has an intent with others. */
  ghost predicate TrueReply(t: Tables, call: Call, reply: Reply) {
    && (reply == Done(Recorded) || reply == Done(AlreadyRecorded) ==>
          call.id in t.sales && t.sales[call.id] == Details(1, 1, call.total))
    && (reply == Done(Refused(DifferentDetails)) ==>
          call.id in t.intents && t.intents[call.id].details != Details(1, 1, call.total))
  }

  ghost predicate Claims(client: Client, id: string) {
    client.Replied? && client.reply == Done(Recorded) && client.call.id == id
  }

  ghost predicate Told(a: Answer, id: string) { a.reply == Done(Recorded) && a.call.id == id }

  /** At most one caller, waiting or answered, is told that it recorded `id`. */
  ghost predicate OneCredit(clients: map<nat, Client>, answers: seq<Answer>, id: string) {
    (forall c, d :: c in clients && d in clients && Claims(clients[c], id) && Claims(clients[d], id) ==> c == d)
    && (forall c, i :: c in clients && Claims(clients[c], id) && 0 <= i < |answers| ==> !Told(answers[i], id))
    && (forall i, j :: 0 <= i < j < |answers| && Told(answers[i], id) ==> !Told(answers[j], id))
  }

  ghost predicate AnswerOk(t: Tables, a: Answer) {
    a.call.attempt <= LAST_ATTEMPT && TrueReply(t, a.call, a.reply)
    && (a.reply.Conflict? ==> a.call.attempt == LAST_ATTEMPT)
  }

  ghost predicate Inv(w: World) {
    Balanced(w.tables, w.order)
    && CompleteIffSold(w.tables)
    && ClientsOk(w.tables, w.clients) && AnswersOk(w.tables, w.answers) && Credits(w.clients, w.answers)
  }

  /** What later worlds keep: sales with their rows, and every intent's details. */
  ghost predicate Later(t: Tables, u: Tables) {
    (forall id :: id in t.sales ==> id in u.sales && u.sales[id] == t.sales[id])
    && (forall id :: id in t.intents ==> id in u.intents && u.intents[id].details == t.intents[id].details)
  }

  // ── One commit ───────────────────────────────────────────────────────────────────────────────

  /** A scope whose rows nobody committed since would have recorded on the current tables alike. */
  lemma SameOnCurrent(t: Tables, snapshot: Tables, stale: set<Key>, id: string, total: int)
    requires Fresh(t, snapshot, stale) && stale * WrittenBySale(id) == {}
    requires 1 in t.stock
    ensures VerdictOf(snapshot, id, total) == VerdictOf(t, id, total)
    ensures StagedBy(snapshot, id, total) == StagedBy(t, id, total)
  {
    forall key | key in WrittenBySale(id) ensures Same(snapshot, t, key) {
      assert key !in stale * WrittenBySale(id);
    }
    assert Same(snapshot, t, StockKey(1)) && Same(snapshot, t, SaleKey(id)) && Same(snapshot, t, IntentKey(id));
  }

  /** `u` is `t` with one more sale written into each table. */
  ghost predicate Adds(t: Tables, u: Tables, id: string, total: int) {
    id in t.intents && t.intents[id].details == Details(1, 1, total) && 1 in t.stock
    && u.stock == t.stock[1 := t.stock[1] - 1]
    && u.sales == t.sales[id := Details(1, 1, total)]
    && u.lines == t.lines[id := Line(id, 1, 1)]
    && u.intents == t.intents[id := Intent(Details(1, 1, total), true)]
    && u.audit == t.audit + [Change(1, t.stock[1], t.stock[1] - 1)]
  }

  lemma StagedAdds(t: Tables, id: string, total: int)
    requires VerdictOf(t, id, total).Recorded? && 1 in t.stock
    ensures Adds(t, Over(t, StagedBy(t, id, total)), id, total)
  {
  }

  lemma AddsBalances(t: Tables, u: Tables, order: seq<string>, id: string, total: int)
    requires Balanced(t, order) && id !in t.sales && Adds(t, u, id, total)
    ensures Balanced(u, order + [id])
  {
    var after := order + [id];
    forall i | 0 <= i < |after| ensures u.audit[i] == Change(1, 100 - i, 99 - i) {
      assert i < |order| ==> t.audit[i] == Change(1, 100 - i, 99 - i);
    }
    forall other | other in u.sales ensures SaleRows(u, other) {
      assert other != id ==> SaleRows(t, other);
    }
  }

  lemma AddsElsewhere(t: Tables, u: Tables, id: string, total: int)
    requires Adds(t, u, id, total) && id !in t.sales && CompleteIffSold(t)
    ensures CompleteIffSold(u) && Later(t, u)
    ensures forall key :: key !in WrittenBySale(id) ==> Same(t, u, key)
  {
  }

  // ── One step keeps the invariant ─────────────────────────────────────────────────────────────

  lemma ClientKeeps(t: Tables, u: Tables, keys: set<Key>, client: Client)
    requires ClientOk(t, client) && Later(t, u)
    requires forall key :: key !in keys ==> Same(t, u, key)
    ensures ClientOk(u, if client.Open? then client.(stale := client.stale + keys) else client)
  {
    if client.Open? {
      forall key | key !in client.stale + keys ensures Same(client.snapshot, u, key) {
        assert Same(client.snapshot, t, key) && Same(t, u, key);
      }
    }
  }

  ghost predicate ClientsOk(t: Tables, clients: map<nat, Client>) {
    forall c :: c in clients ==> ClientOk(t, clients[c])
  }

  ghost predicate AnswersOk(t: Tables, answers: seq<Answer>) {
    forall i :: 0 <= i < |answers| ==> AnswerOk(t, answers[i])
  }

  lemma TablesMove(t: Tables, u: Tables, keys: set<Key>, clients: map<nat, Client>, answers: seq<Answer>)
    requires ClientsOk(t, clients) && AnswersOk(t, answers) && Later(t, u)
    requires forall key :: key !in keys ==> Same(t, u, key)
    ensures ClientsOk(u, Outdate(clients, keys)) && AnswersOk(u, answers)
  {
    forall c | c in clients ensures ClientOk(u, Outdate(clients, keys)[c]) {
      ClientKeeps(t, u, keys, clients[c]);
    }
    forall i | 0 <= i < |answers| ensures AnswerOk(u, answers[i]) {
      assert AnswerOk(t, answers[i]);
    }
  }

  ghost predicate Credits(clients: map<nat, Client>, answers: seq<Answer>) {
    forall id :: OneCredit(clients, answers, id)
  }

  /** A client that claims nothing takes the place of another. */
  lemma CreditsKept(before: map<nat, Client>, after: map<nat, Client>, answers: seq<Answer>)
    requires Credits(before, answers)
    requires forall c, id :: c in after && Claims(after[c], id) ==> c in before && Claims(before[c], id)
    ensures Credits(after, answers)
  {
    forall id ensures OneCredit(after, answers, id) {
      assert OneCredit(before, answers, id);
    }
  }

  /** A claim on a sale that was not there before is the first. */
  lemma CreditNew(t: Tables, clients: map<nat, Client>, answers: seq<Answer>, c: nat, call: Call)
    requires Credits(clients, answers) && ClientsOk(t, clients) && AnswersOk(t, answers) && call.id !in t.sales
    ensures Credits(clients[c := Replied(call, Done(Recorded))], answers)
  {
    var after := clients[c := Replied(call, Done(Recorded))];
    forall id ensures OneCredit(after, answers, id) {
      assert OneCredit(clients, answers, id);
      if id == call.id {
        forall d | d in clients ensures !Claims(clients[d], id) { assert ClientOk(t, clients[d]); }
        forall i | 0 <= i < |answers| ensures !Told(answers[i], id) { assert AnswerOk(t, answers[i]); }
      }
    }
  }

  /** An answer takes its claim with it. */
  lemma CreditAnswered(clients: map<nat, Client>, answers: seq<Answer>, c: nat)
    requires Credits(clients, answers) && c in clients && clients[c].Replied?
    ensures Credits(clients[c := Idle], answers + [Answer(c, clients[c].call, clients[c].reply)])
  {
    var after, told := clients[c := Idle], answers + [Answer(c, clients[c].call, clients[c].reply)];
    forall id ensures OneCredit(after, told, id) {
      assert OneCredit(clients, answers, id);
      assert Told(told[|answers|], id) <==> Claims(clients[c], id);
    }
  }

  lemma SaveInv(w: World, id: string, details: Details)
    requires Inv(w)
    ensures Inv(Step(w, Save(id, details))) && Later(w.tables, Step(w, Save(id, details)).tables)
  {
    var u := Step(w, Save(id, details));
    if id !in w.tables.intents {
      var clients := Outdate(w.clients, {IntentKey(id)});
      forall sold | sold in w.tables.sales ensures SaleRows(u.tables, sold) { assert SaleRows(w.tables, sold); }
      TablesMove(w.tables, u.tables, {IntentKey(id)}, w.clients, w.answers);
      CreditsKept(w.clients, clients, w.answers);
    }
  }

  lemma CommitInv(w: World, c: nat, refused: bool)
    requires Inv(w) && At(w, c).Open?
    ensures Inv(CommitOf(w, c, refused)) && Later(w.tables, CommitOf(w, c, refused).tables)
  {
    var Open(call, snapshot, stale) := At(w, c);
    var u := CommitOf(w, c, refused);
    assert ClientOk(w.tables, w.clients[c]);
    if VerdictOf(snapshot, call.id, call.total).Recorded? && !refused && stale * WrittenBySale(call.id) == {} {
      SameOnCurrent(w.tables, snapshot, stale, call.id, call.total);
      RecordInv(w, c, call, u);
    } else {
      CreditsKept(w.clients, u.clients, w.answers);
    }
  }

  lemma RecordInv(w: World, c: nat, call: Call, u: World)
    requires Inv(w) && call.attempt <= LAST_ATTEMPT && VerdictOf(w.tables, call.id, call.total).Recorded?
    requires u == World(Over(w.tables, StagedBy(w.tables, call.id, call.total)),
                        Outdate(w.clients, WrittenBySale(call.id))[c := Replied(call, Done(Recorded))],
                        w.order + [call.id], w.answers)
    ensures Inv(u) && Later(w.tables, u.tables)
  {
    StagedAdds(w.tables, call.id, call.total);
    hide Over, StagedBy, VerdictOf;
    AddsBalances(w.tables, u.tables, w.order, call.id, call.total);
    AddsElsewhere(w.tables, u.tables, call.id, call.total);
    TablesMove(w.tables, u.tables, WrittenBySale(call.id), w.clients, w.answers);
    var moved := Outdate(w.clients, WrittenBySale(call.id));
    CreditsKept(w.clients, moved, w.answers);
    TablesMove(w.tables, w.tables, WrittenBySale(call.id), w.clients, w.answers);
    CreditNew(w.tables, moved, w.answers, c, call);
  }

  lemma StepInv(w: World, a: Action)
    requires Inv(w)
    ensures Inv(Step(w, a)) && Later(w.tables, Step(w, a).tables)
  {
    var u := Step(w, a);
    match a
    case Save(id, details) => SaveInv(w, id, details);
    case Begin(c, id, total) => CreditsKept(w.clients, u.clients, w.answers);
    case Read(c) => if At(w, c).Trying? { ReadInv(w, c); }
    case Commit(c, refused) => if At(w, c).Open? { CommitInv(w, c, refused); }
    case Receive(c) => if At(w, c).Replied? { ReceiveInv(w, c); }
    case Lose(c) => CreditsKept(w.clients, u.clients, w.answers);
  }

  lemma ReadInv(w: World, c: nat)
    requires Inv(w) && At(w, c).Trying?
    ensures Inv(Step(w, Read(c)))
  {
    assert ClientOk(w.tables, w.clients[c]);
    CreditsKept(w.clients, Step(w, Read(c)).clients, w.answers);
  }

  lemma ReceiveInv(w: World, c: nat)
    requires Inv(w) && At(w, c).Replied?
    ensures Inv(ReceiveOf(w, c))
  {
    var u := ReceiveOf(w, c);
    assert ClientOk(w.tables, w.clients[c]);
    if |u.answers| == |w.answers| {
      CreditsKept(w.clients, u.clients, w.answers);
    } else {
      CreditAnswered(w.clients, w.answers, c);
    }
  }

  lemma {:induction false} RunInv(actions: seq<Action>)
    ensures Inv(Run(Start(), actions))
    decreases |actions|
  {
    if actions != [] {
      RunInv(actions[..|actions| - 1]);
      StepInv(Run(Start(), actions[..|actions| - 1]), actions[|actions| - 1]);
    }
  }

  // ── What the shop is promised ────────────────────────────────────────────────────────────────

  /** What the transaction answers, of the durable intent alone: whether there is one, whether it is for these details,
      and whether it is complete. */
  lemma VerdictMeans(actions: seq<Action>, id: string, total: int)
    ensures var t := Run(Start(), actions).tables;
            var verdict := VerdictOf(t, id, total);
      && (verdict == Refused(NoDurableIntent) <==> id !in t.intents)
      && (verdict == Refused(DifferentDetails) <==> id in t.intents && t.intents[id].details != Details(1, 1, total))
      && (verdict == Recorded <==> id in t.intents && t.intents[id] == Intent(Details(1, 1, total), false))
      && (verdict == AlreadyRecorded <==> id in t.intents && t.intents[id] == Intent(Details(1, 1, total), true))
  {
    RunInv(actions);
    var t := Run(Start(), actions).tables;
    hide ClientsOk, AnswersOk, Credits, Run;
    if id in t.sales { assert SaleRows(t, id); }
  }

  /** After any run: each sale once, with its line and its completed intent; stock and sales make 100;
      the audit counts down one by one. */
  lemma BooksBalance(actions: seq<Action>)
    ensures var t := Run(Start(), actions).tables;
            t.stock == map[1 := 100 - |t.sales|] && |t.audit| == |t.sales|
            && (forall i :: 0 <= i < |t.audit| ==> t.audit[i] == Change(1, 100 - i, 99 - i))
            && t.lines.Keys == t.sales.Keys
            && (forall id :: id in t.sales ==> SaleRows(t, id))
            && CompleteIffSold(t)
  {
    RunInv(actions);
    var w := Run(Start(), actions);
    Distinct(w.order);
    assert w.tables.sales.Keys == set id | id in w.order;
  }

  lemma {:induction false} Distinct(order: seq<string>)
    requires forall i, j :: 0 <= i < j < |order| ==> order[i] != order[j]
    ensures |set id | id in order| == |order|
  {
    if order != [] {
      var last := |order| - 1;
      Distinct(order[..last]);
      assert (set id | id in order) == (set id | id in order[..last]) + {order[last]};
    }
  }

  /** Every answer that reports success is true for good; a call that gives up on conflicts made eight attempts. */
  lemma AnswersAreTrue(actions: seq<Action>, more: seq<Action>, i: nat)
    requires i < |Run(Start(), actions).answers|
    ensures var a := Run(Start(), actions).answers[i];
            TrueReply(Run(Run(Start(), actions), more).tables, a.call, a.reply)
            && a.call.attempt + 1 <= 8 && (a.reply == Conflict ==> a.call.attempt + 1 == 8)
  {
    var w := Run(Start(), actions);
    RunInv(actions);
    RunLater(w, more);
    assert AnswerOk(w.tables, w.answers[i]);
  }

  /** No two calls are told that they recorded the same sale. */
  lemma OneRecorder(actions: seq<Action>, i: nat, j: nat)
    requires i < j < |Run(Start(), actions).answers|
    ensures var answers := Run(Start(), actions).answers;
            answers[i].reply == Done(Recorded) == answers[j].reply ==> answers[i].call.id != answers[j].call.id
  {
    var w := Run(Start(), actions);
    RunInv(actions);
    assert OneCredit(w.clients, w.answers, w.answers[i].call.id);
    assert Told(w.answers[i], w.answers[i].call.id) && Told(w.answers[j], w.answers[i].call.id)
      <== w.answers[i].reply == Done(Recorded) == w.answers[j].reply && w.answers[i].call.id == w.answers[j].call.id;
  }

  lemma {:induction false} RunLater(w: World, more: seq<Action>)
    requires Inv(w)
    ensures Inv(Run(w, more)) && Later(w.tables, Run(w, more).tables)
    decreases |more|
  {
    if more != [] {
      RunLater(w, more[..|more| - 1]);
      StepInv(Run(w, more[..|more| - 1]), more[|more| - 1]);
    }
  }

  /** Once a sale is in, a call that starts at any later time finds it: with the same total it is told so,
      with another it is refused, and either way its scope stages nothing. */
  lemma RetryHasNoEffect(actions: seq<Action>, more: seq<Action>, id: string, total: int)
    requires id in Run(Start(), actions).tables.sales
    ensures var t := Run(Run(Start(), actions), more).tables;
            StagedBy(t, id, total) == NOTHING
            && VerdictOf(t, id, total) == if total == Run(Start(), actions).tables.sales[id].total
                                          then AlreadyRecorded else Refused(DifferentDetails)
  {
    RunInv(actions);
    RunLater(Run(Start(), actions), more);
    var w := Run(Run(Start(), actions), more);
    assert SaleRows(w.tables, id);
  }

  // ── A call, attempt by attempt ───────────────────────────────────────────────────────────────

  /** What the others do before this attempt reads, between its reading and its commit, and whether the
      store refuses it without need. */
  datatype Turn = Turn(before: seq<Action>, during: seq<Action>, refused: bool)

  predicate IsOther(a: Action, me: nat) { a.Save? || a.client != me }

  predicate OthersOnly(actions: seq<Action>, me: nat) { forall i :: 0 <= i < |actions| ==> IsOther(actions[i], me) }

  /** Others can only make an open scope stale. */
  predicate Untouched(before: Client, after: Client) {
    after == before || (before.Open? && after.Open? && after == before.(stale := after.stale))
  }

  class Shop {
    var world: World

    constructor ()
      ensures world == Start()
    {
      world := Start();
    }

    method Do(a: Action)
      modifies this
      ensures world == Step(old(world), a)
    {
      world := Step(world, a);
    }

    method DoAll(actions: seq<Action>, me: nat, ghost trace: seq<Action>) returns (ghost longer: seq<Action>)
      requires OthersOnly(actions, me)
      modifies this
      ensures forall w :: Run(w, trace) == old(world) ==> Run(w, longer) == world
      ensures Untouched(old(At(world, me)), At(world, me))
    {
      var i := 0;
      longer := trace;
      while i < |actions|
        invariant i <= |actions|
        invariant forall w :: Run(w, trace) == old(world) ==> Run(w, longer) == world
        invariant Untouched(old(At(world, me)), At(world, me))
      {
        Do(actions[i]);
        longer := longer + [actions[i]];
        i := i + 1;
      }
    }

    /** Validates the scope against what was committed since its snapshot, and publishes it whole or not at all. */
    method CommitScope(me: nat, scope: Scope, verdict: Verdict, refused: bool)
      requires At(world, me).Open? && scope.snapshot == At(world, me).snapshot
      requires verdict == VerdictOf(scope.snapshot, At(world, me).call.id, At(world, me).call.total)
      requires scope.staged == StagedBy(scope.snapshot, At(world, me).call.id, At(world, me).call.total)
      modifies this
      ensures world == Step(old(world), Commit(me, refused))
    {
      var Open(call, _, stale) := At(world, me);
      if verdict.Recorded? {
        var keys := WrittenBySale(call.id);
        if refused || stale * keys != {} {
          world := Set(world, me, Replied(call, Conflict));
        } else {
          world := World(Over(world.tables, scope.staged),
              Outdate(world.clients, keys)[me := Replied(call, Done(Recorded))],
                         world.order + [call.id], world.answers);
        }
      } else {
        world := Set(world, me, Replied(call, Done(verdict)));
      }
    }

    /** One attempt, up to the store's reply. */
    method Attempt(me: nat, turn: Turn, ghost first: World, ghost trace: seq<Action>)
      returns (reply: Reply, ghost longer: seq<Action>)
      requires Inv(first) && world == Run(first, trace) && At(world, me).Trying?
      requires OthersOnly(turn.before, me) && OthersOnly(turn.during, me)
      modifies this
      ensures world == Run(first, longer)
      ensures At(world, me) == Replied(old(At(world, me)).call, reply)
    {
      longer := DoAll(turn.before, me, trace);
      RunLater(first, longer);
      hide VerdictOf, StagedBy, Over, Outdate, WrittenBySale, OthersOnly, ClientsOk, AnswersOk, Credits,
          CompleteIffSold;
      var call := At(world, me).call;
      var scope := new Scope(world.tables);
      Do(Read(me));
      longer := Longer(first, longer, Read(me));
      var verdict := scope.RunSale(call.id, call.total);
      longer := DoAll(turn.during, me, longer);
      CommitReplies(world, me, turn.refused);
      CommitScope(me, scope, verdict, turn.refused);
      longer := Longer(first, longer, Commit(me, turn.refused));
      reply := At(world, me).reply;
    }

    /** The retry loop: each attempt on a new snapshot, at most eight, and again only after a conflict. */
    method RecordSale(me: nat, id: string, total: int, turns: seq<Turn>)
      returns (reply: Reply, attempt: nat, replies: seq<Reply>, ghost trace: seq<Action>)
      requires |turns| == LAST_ATTEMPT + 1
      requires forall i :: 0 <= i <= LAST_ATTEMPT ==> OthersOnly(turns[i].before, me) && OthersOnly(turns[i].during, me)
      requires Inv(world) && At(world, me) == Idle
      modifies this
      ensures world == Run(old(world), trace) && Inv(world) && At(world, me) == Idle
      ensures |world.answers| > 0 && world.answers[|world.answers| - 1] == Answer(me, Call(id, total, attempt), reply)
      ensures attempt + 1 <= 8 && (reply == Conflict ==> attempt + 1 == 8)
      ensures |replies| == attempt + 1 && replies[attempt] == reply
      ensures forall i :: 0 <= i < attempt ==> replies[i] == Conflict
      ensures TrueReply(world.tables, Call(id, total, attempt), reply)
    {
      trace := Longer(world, [], Begin(me, id, total));
      Do(Begin(me, id, total));
      attempt, replies := 0, [];
      while true
        invariant attempt <= LAST_ATTEMPT && At(world, me) == Trying(Call(id, total, attempt))
        invariant world == Run(old(world), trace)
        invariant |replies| == attempt && forall i :: 0 <= i < attempt ==> replies[i] == Conflict
        decreases LAST_ATTEMPT - attempt
      {
        reply, trace := Attempt(me, turns[attempt], old(world), trace);
        replies := replies + [reply];
        trace := Longer(old(world), trace, Receive(me));
        Do(Receive(me));
        if reply != Conflict || attempt >= LAST_ATTEMPT {
          RunLater(old(world), trace);
          return;
        }
        attempt := attempt + 1;
      }
    }
  }

  lemma CommitReplies(w: World, me: nat, refused: bool)
    requires At(w, me).Open?
    ensures var after := At(Step(w, Commit(me, refused)), me); after.Replied? && after.call == At(w, me).call
  {
  }

  ghost method Longer(w: World, trace: seq<Action>, a: Action) returns (longer: seq<Action>)
    ensures longer == trace + [a] && Run(w, longer) == Step(Run(w, trace), a)
  {
    longer := trace + [a];
    assert longer[..|trace|] == trace;
  }

  // ── Interrupted sales ────────────────────────────────────────────────────────────────────────

  /** Messages between the page and its worker, as the fault interceptor sees them. */
  datatype Event = Post(request: nat, commit: bool) | Result(request: nat) | Failure(request: nat)

  datatype When = BeforeCommit | AfterCommit

  function LastCommit(events: seq<Event>, n: nat): Option<nat>
    requires n <= |events|
  {
    if n == 0 then None
    else if events[n - 1].Post? && events[n - 1].commit then Some(events[n - 1].request)
    else LastCommit(events, n - 1)
  }

  /** The point where the interceptor kills the worker: a commit about to leave, or the latest commit's result. */
  ghost predicate Cuts(when: When, events: seq<Event>, i: nat)
    requires i < |events|
  {
    match when
    case BeforeCommit => events[i].Post? && events[i].commit
    case AfterCommit => events[i].Result? && LastCommit(events, i) == Some(events[i].request)
  }

  class Interceptor {
    var fault: Option<When>
    var commitRequest: Option<nat>
    var faultObserved: bool

    constructor (when: When)
      ensures fault == Some(when) && commitRequest == None && !faultObserved
    {
      fault, commitRequest, faultObserved := Some(when), None, false;
    }

    method Sees(e: Event) returns (passes: bool)
      modifies this
      ensures fault == old(fault)
      ensures commitRequest == if fault.Some? && e.Post? && e.commit then Some(e.request) else old(commitRequest)
      ensures passes == !((fault == Some(BeforeCommit) && e.Post? && e.commit)
                          || (fault == Some(AfterCommit) && e.Result? && Some(e.request) == commitRequest))
      ensures faultObserved == (old(faultObserved) || !passes)
    {
      passes := true;
      if e.Result? && fault == Some(AfterCommit) && commitRequest == Some(e.request) {
        faultObserved := true;
        passes := false;
      }
      if fault.Some? && e.Post? && e.commit {
        commitRequest := Some(e.request);
        if fault == Some(BeforeCommit) {
          faultObserved := true;
          passes := false;
        }
      }
    }

    /** All messages pass up to the first fault point, and none from there on. */
    method Relay(events: seq<Event>) returns (passed: seq<Event>)
      requires fault.Some? && commitRequest == None && !faultObserved
      modifies this
      ensures passed <= events && faultObserved == (|passed| < |events|)
      ensures forall i :: 0 <= i < |passed| ==> !Cuts(old(fault).value, events, i)
      ensures faultObserved ==> Cuts(old(fault).value, events, |passed|)
    {
      passed := [];
      while |passed| < |events|
        invariant |passed| <= |events| && passed == events[..|passed|]
        invariant fault == old(fault) && !faultObserved && commitRequest == LastCommit(events, |passed|)
        invariant forall i :: 0 <= i < |passed| ==> !Cuts(fault.value, events, i)
      {
        var passes := Sees(events[|passed|]);
        if !passes { return; }
        passed := passed + [events[|passed|]];
      }
    }
  }

  lemma Opened(w: World, c: nat, id: string, total: int)
    requires At(w, c) == Idle
    ensures Step(Step(w, Begin(c, id, total)), Read(c)) == Set(w, c, Open(Call(id, total, 0), w.tables, {}))
  {
  }

  lemma Committed(w: World, c: nat)
    requires At(w, c).Open? && At(w, c).stale * WrittenBySale(At(w, c).call.id) == {} && At(w, c).snapshot == w.tables
    requires 1 in w.tables.stock && VerdictOf(w.tables, At(w, c).call.id, At(w, c).call.total) == Recorded
    ensures var u, call := Step(w, Commit(c, false)), At(w, c).call;
            u.order == w.order + [call.id] && Adds(w.tables, u.tables, call.id, call.total)
            && VerdictOf(u.tables, call.id, call.total) == AlreadyRecorded
            && u.clients == Outdate(w.clients, WrittenBySale(call.id))[c := Replied(call, Done(Recorded))]
  {
    StagedAdds(w.tables, At(w, c).call.id, At(w, c).call.total);
  }

  lemma Saved(w: World, id: string, total: int)
    requires Inv(w) && id !in w.tables.intents
    ensures var u := Step(w, Save(id, Details(1, 1, total)));
            VerdictOf(u.tables, id, total) == Recorded && u.order == w.order && u.tables.stock == w.tables.stock
                && 1 in u.tables.stock
  {
    assert forall sold :: sold in w.tables.sales ==> SaleRows(w.tables, sold);
  }

  /** A sale whose worker is lost before its commit can still be recorded; lost after it, it already is. */
  lemma InterruptedSale(w: World, c: nat, id: string, when: When)
    requires Inv(w) && At(w, c) == Idle && id !in w.tables.intents
    ensures var open := Step(Step(Step(w, Save(id, Details(1, 1, 1000))), Begin(c, id, 1000)), Read(c));
            var lost := Step(if when.AfterCommit? then Step(open, Commit(c, false)) else open, Lose(c));
            lost.order == (if when.AfterCommit? then w.order + [id] else w.order)
            && VerdictOf(lost.tables, id, 1000) == if when.AfterCommit? then AlreadyRecorded else Recorded
  {
    var saved := Step(w, Save(id, Details(1, 1, 1000)));
    Saved(w, id, 1000);
    Opened(saved, c, id, 1000);
    var open := Set(saved, c, Open(Call(id, 1000, 0), saved.tables, {}));
    Committed(open, c);
    hide VerdictOf, StagedBy, Inv, CommitOf, Over, Outdate;
  }

  /** Two clients retrying one unrecorded sale at once: one records it, the other's commit is refused, and
      its next attempt finds the sale. */
  lemma TwoRetries(w: World, c: nat, d: nat, id: string, total: int)
    requires Inv(w) && At(w, c) == Idle == At(w, d) && c != d && VerdictOf(w.tables, id, total) == Recorded
    ensures var read := Step(Step(Step(Step(w, Begin(c, id, total)), Read(c)), Begin(d, id, total)), Read(d));
            var done := Step(Step(read, Commit(c, false)), Commit(d, false));
            At(done, c) == Replied(Call(id, total, 0), Done(Recorded))
            && At(done, d) == Replied(Call(id, total, 0), Conflict)
            && done.order == w.order + [id]
            && VerdictOf(done.tables, id, total) == AlreadyRecorded
  {
    var call := Call(id, total, 0);
    Opened(w, c, id, total);
    var one := Set(w, c, Open(call, w.tables, {}));
    Opened(one, d, id, total);
    var read := Set(one, d, Open(call, w.tables, {}));
    Committed(read, c);
    var first := Step(read, Commit(c, false));
    assert At(first, d) == Open(call, w.tables, {} + WrittenBySale(id));
    assert StockKey(1) in ({} + WrittenBySale(id)) * WrittenBySale(id);
    hide StagedBy, Inv, Over;
    assert Step(first, Commit(d, false)) == Set(first, d, Replied(call, Conflict));
  }

  // ── As many sales as one likes ───────────────────────────────────────────────────────────────

  /** Saving an intent for a new sale and recording it, undisturbed. */
  function Selling(c: nat, id: string): seq<Action> {
    [Save(id, Details(1, 1, 1000)), Begin(c, id, 1000), Read(c), Commit(c, false), Receive(c)]
  }

  lemma OneSale(w: World, c: nat, id: string)
    requires Inv(w) && At(w, c) == Idle && id !in w.tables.intents
    ensures var u := Step(Step(Step(Step(Step(w, Save(id, Details(1, 1, 1000))), Begin(c, id, 1000)), Read(c)),
                               Commit(c, false)), Receive(c));
            u.order == w.order + [id] && At(u, c) == Idle && u.tables.intents.Keys == w.tables.intents.Keys + {id}
  {
    var saved := Step(w, Save(id, Details(1, 1, 1000)));
    Saved(w, id, 1000);
    Opened(saved, c, id, 1000);
    var open := Set(saved, c, Open(Call(id, 1000, 0), saved.tables, {}));
    Committed(open, c);
    hide VerdictOf, StagedBy, Inv, CommitOf, Over, Outdate;
  }

  lemma {:induction false} RunAppends(w: World, a: seq<Action>, b: seq<Action>)
    ensures Run(w, a + b) == Run(Run(w, a), b)
    decreases |b|
  {
    if b == [] {
      assert a + b == a;
    } else {
      RunAppends(w, a, b[..|b| - 1]);
      assert (a + b)[..|a + b| - 1] == a + b[..|b| - 1];
    }
  }

  lemma SellingRuns(w: World, c: nat, id: string)
    ensures Run(w, Selling(c, id)) == Step(Step(Step(Step(Step(w, Save(id, Details(1, 1, 1000))), Begin(c, id, 1000)),
                                                     Read(c)), Commit(c, false)), Receive(c))
  {
    hide Step;
    var all := Selling(c, id);
    assert all[..4][..3] == all[..3] && all[..3][..2] == all[..2] && all[..2][..1] == all[..1] && all[..1][..0] == [];
    assert Run(w, all[..1]) == Step(w, all[0]);
    assert Run(w, all[..2]) == Step(Run(w, all[..1]), all[1]);
    assert Run(w, all[..3]) == Step(Run(w, all[..2]), all[2]);
    assert Run(w, all[..4]) == Step(Run(w, all[..3]), all[3]);
  }

  lemma SellsOne(w: World, c: nat, id: string)
    requires Inv(w) && At(w, c) == Idle && id !in w.tables.intents
    ensures var u := Run(w, Selling(c, id));
            Inv(u) && At(u, c) == Idle && u.order == w.order + [id]
            && u.tables.intents.Keys == w.tables.intents.Keys + {id}
  {
    hide Inv, Step, Run, Selling;
    OneSale(w, c, id);
    SellingRuns(w, c, id);
    RunLater(w, Selling(c, id));
  }

  lemma RunsNothing(w: World)
    ensures Run(w, []) == w
  {
  }

  /** From any world, an idle client can record any number of new sales. */
  lemma {:induction false} SellAll(w: World, c: nat, ids: seq<string>) returns (actions: seq<Action>)
    requires Inv(w) && At(w, c) == Idle
    requires forall i :: 0 <= i < |ids| ==> ids[i] !in w.tables.intents
    requires forall i, j :: 0 <= i < j < |ids| ==> ids[i] != ids[j]
    ensures Inv(Run(w, actions)) && At(Run(w, actions), c) == Idle && Run(w, actions).order == w.order + ids
    decreases |ids|
  {
    hide Inv, Step, Run, Selling, At;
    if ids == [] {
      actions := [];
      RunsNothing(w);
      assert w.order + ids == w.order;
    } else {
      SellsOne(w, c, ids[0]);
      var rest := SellAll(Run(w, Selling(c, ids[0])), c, ids[1..]);
      actions := Selling(c, ids[0]) + rest;
      RunAppends(w, Selling(c, ids[0]), rest);
      assert [ids[0]] + ids[1..] == ids;
    }
  }

  function Name(n: nat): string { seq(n, _ => 'x') }

  /** From the start, a run that records any number of sales. */
  lemma SellFromStart(n: nat) returns (actions: seq<Action>)
    ensures |Run(Start(), actions).order| == n
  {
    var ids := seq(n, i requires 0 <= i => Name(i));
    forall i, j | 0 <= i < j < |ids| ensures ids[i] != ids[j] { assert |ids[i]| == i && |ids[j]| == j; }
    StartsIdle();
    hide Inv, Step, Run;
    actions := SellAll(Start(), 0, ids);
  }

  ghost predicate StandsAt(actions: seq<Action>, level: int) {
    Run(Start(), actions).tables.stock == map[1 := level]
  }

  lemma StandsByOrder(actions: seq<Action>, level: int)
    ensures StandsAt(actions, level) <==> level == 100 - |Run(Start(), actions).order|
  {
    RunInv(actions);
    hide Run;
    StockOf(Run(Start(), actions), level);
  }

  lemma StockOf(w: World, level: int)
    requires Inv(w)
    ensures w.tables.stock == map[1 := level] <==> level == 100 - |w.order|
  {
    hide ClientsOk, AnswersOk, Credits, CompleteIffSold, SaleRows;
    var left := 100 - |w.order|;
    assert map[1 := left][1] == left && map[1 := level][1] == level;
  }

  /** The stock can stand at any number up to 100 and at no other: with no lower bound in the transaction, the
      hundred and first sale takes it below zero. */
  lemma StockLevels(level: int)
    ensures (exists actions :: StandsAt(actions, level)) <==> level <= 100
  {
    hide StandsAt, Run;
    if level <= 100 {
      var actions := SellFromStart(100 - level);
      StandsByOrder(actions, level);
    }
    if actions :| StandsAt(actions, level) { StandsByOrder(actions, level); }
  }

  lemma StartsIdle()
    ensures Inv(Start()) && At(Start(), 0) == Idle && Start().order == []
  {
    RunInv([]);
  }
}
