/** The page's run object and the worker's poster, with the fields the source updates in place
    (packages/core/browser/next-storage-run.ts and packages/core/browser/next-storage-post.ts). */
module ChaosPage {
  import opened Wrappers
  import opened ChaosTypes

  /** `chaosPoster`: the closure's counter, the shared cell it stores to, and the port it posts on. */
  class ChaosPoster {
    var claimed: nat
    var counter: nat
    var port: seq<Numbered>

    /** Between posts: everything claimed was posted, in order, numbered from 1. */
    ghost predicate Valid()
      reads this
    {
      claimed == counter == |port| && forall i :: 0 <= i < |port| ==> port[i].n == i + 1
    }

    /** After the claim and before the post: one number is claimed that no message carries yet. */
    ghost predicate Claimed()
      reads this
    {
      claimed == counter == |port| + 1 && forall i :: 0 <= i < |port| ==> port[i].n == i + 1
    }

    constructor ()
      ensures Valid() && port == []
    {
      claimed, counter, port := 0, 0, [];
    }

    /** The store to shared memory: the message it numbers is not on the port yet. */
    method Claim()
      requires Valid()
      modifies this
      ensures Claimed() && port == old(port)
    {
      claimed := claimed + 1;
      counter := claimed;
    }

    method Hand(message: Message)
      requires Claimed()
      modifies this`port
      ensures Valid() && port == old(port) + [Numbered(|old(port)| + 1, message)]
    {
      port := port + [Numbered(claimed, message)];
    }

    /** One call of the poster: claim, then post. The counter covers the port at every instant. */
    method Post(message: Message)
      requires Valid()
      modifies this
      ensures Valid() && port == old(port) + [Numbered(|old(port)| + 1, message)]
    {
      Claim();
      Hand(message);
    }
  }

  /** `ChaosRun`: what the message handler updates. */
  class ChaosRun {
    const mode: Mode
    var received: nat
    var state: Option<ChaosState>
    var inFlight: seq<Intent>
    var began: set<nat>
    var settled: set<nat>
    var requests: map<nat, string>
    var hold: bool
    var failure: Option<string>
    var armed: Option<Armed>
    var faultArmed: bool
    var completed: nat

    ghost function Value(): View
      reads this
    {
      View(received, state, inFlight, began, settled, requests, hold, failure, armed, faultArmed, completed)
    }

    constructor (mode: Mode)
      ensures Value() == Fresh() && this.mode == mode
    {
      this.mode := mode;
      received, state, inFlight := 0, None, [];
      began, settled, requests := {}, {}, map[];
      hold, failure, armed, faultArmed, completed := false, None, None, false, 0;
    }

    /** The port's handler: checks the number, then reacts; `go` is what it posts back. */
    method OnMessage(numbered: Numbered) returns (go: Option<nat>)
      modifies this
      ensures Reaction(Value(), go) == Receive(old(Value()), mode, numbered)
    {
      go := None;
      if numbered.n != received + 1 && failure.None? { failure := Some(OUT_OF_ORDER); }
      received := numbered.n;
      match numbered.message {
        case Recovered(s) => state := Some(s);
        case Ack(s) => state := Some(s);
        case Failure(text) => if failure.None? { failure := Some(text); }
        case Request(id, begin, request) =>
          if begin { requests := requests[id := request]; } else { requests := requests - {id}; }
        case Injecting => if faultArmed { faultArmed := false; hold := true; }
        case Began(s) => began := began + {s};
        case Settled(s) => settled := settled + {s};
        case Done(s) =>
          inFlight := Drop(inFlight, s);
          completed := completed + 1;
        case Announce(intent) => go := OnIntent(intent);
      }
    }

    /** An intent: recorded and answered, unless the page holds; in serial mode it may fire an armed kill. */
    method OnIntent(intent: Intent) returns (go: Option<nat>)
      modifies this
      ensures Reaction(Value(), go) == Answer(old(Value()), mode, intent)
    {
      if hold { return None; }
      inFlight := Put(inFlight, intent);
      if mode == Concurrent { return Some(intent.sequence); }
      if armed.Some? && armed.value.target == intent.step {
        armed := Some(armed.value.(remaining := armed.value.remaining - 1));
        if armed.value.remaining == 0 {
          hold := armed.value.page;
          armed := None;
        }
      }
      go := Some(intent.sequence);
    }
  }
}
