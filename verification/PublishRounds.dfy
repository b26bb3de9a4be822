/** The publisher and the verifier of the publish kill test: rounds over an extent space whose owner may be
    killed at any point (packages/core/browser/next-storage-worker.ts, packages/core/browser/next-storage-run.ts).
    The space keeps its contract (packages/core/src/next/storage/extents.ts): a publish is atomic, an open
    rebuilds the free space from both kept roots, retired space is reused one publish later. */
module PublishRounds {
  import opened Wrappers

  datatype Extent = Extent(offset: nat, length: nat)
  datatype Blob = Blob(extent: Extent, offset: nat, length: nat)
  datatype Root = Root(round: nat, blobs: seq<Blob>)

  predicate Apart(a: Extent, b: Extent) { a.offset + a.length <= b.offset || b.offset + b.length <= a.offset }

  /** Extents that may all be allocated at once. */
  ghost predicate Disjoint(s: set<Extent>) {
    && (forall a :: a in s ==> a.length > 0)
    && (forall a, b :: a in s && b in s && a != b ==> Apart(a, b))
  }

  /** `Map.set` by offset on an insertion-ordered map. */
  function Put(list: seq<Extent>, e: Extent): seq<Extent> {
    if list == [] then [e]
    else if list[0].offset == e.offset then [e] + list[1..]
    else [list[0]] + Put(list[1..], e)
  }

  function Collect(list: seq<Extent>, blobs: seq<Blob>): seq<Extent>
    decreases |blobs|
  {
    if blobs == [] then list else Collect(Put(list, blobs[0].extent), blobs[1..])
  }

  /** `extentsOf`: a root's extents, each once, in order of first use. */
  function ExtentsOf(root: Option<Root>): seq<Extent> {
    if root.None? then [] else Collect([], root.value.blobs)
  }

  /** The extents a root names. */
  function Named(root: Option<Root>): set<Extent> {
    if root.None? then {} else set k | 0 <= k < |root.value.blobs| :: root.value.blobs[k].extent
  }

  lemma {:induction false} CollectSame(list: seq<Extent>, blobs: seq<Blob>, e: Extent)
    requires list != [] && list[|list| - 1] == e
    requires forall k :: 0 <= k < |list| - 1 ==> list[k].offset != e.offset
    requires forall k :: 0 <= k < |blobs| ==> blobs[k].extent == e
    ensures Collect(list, blobs) == list
    decreases |blobs|
  {
    if blobs != [] {
      PutLast(list, e);
      CollectSame(list, blobs[1..], e);
    }
  }

  lemma {:induction false} PutLast(list: seq<Extent>, e: Extent)
    requires list != [] && list[|list| - 1] == e && forall k :: 0 <= k < |list| - 1 ==> list[k].offset != e.offset
    ensures Put(list, e) == list
  {
    if list[0].offset != e.offset { PutLast(list[1..], e); }
  }

  lemma {:induction false} CollectSplit(list: seq<Extent>, a: seq<Blob>, b: seq<Blob>)
    ensures Collect(list, a + b) == Collect(Collect(list, a), b)
    decreases |a|
  {
    if a == [] {
      assert a + b == b;
    } else {
      assert (a + b)[1..] == a[1..] + b;
      CollectSplit(Put(list, a[0].extent), a[1..], b);
    }
  }

  /** What a published round's root names, and that the list in memory is the list a reopened owner reads. */
  lemma RoundExtents(number: nat, sealed: Extent, first: seq<Blob>, tail: Extent, second: seq<Blob>)
    requires first != [] && second != [] && sealed.offset != tail.offset
    requires forall k :: 0 <= k < |first| ==> first[k].extent == sealed
    requires forall k :: 0 <= k < |second| ==> second[k].extent == tail
    ensures ExtentsOf(Some(Root(number, first + second))) == [sealed, tail]
    ensures Named(Some(Root(number, first + second))) == {sealed, tail}
  {
    CollectSplit([], first, second);
    CollectSame([sealed], first[1..], sealed);
    assert Put([sealed], tail) == [sealed, tail];
    CollectSame([sealed, tail], second[1..], tail);
    var blobs := first + second;
    assert blobs[0].extent == sealed && blobs[|first|].extent == tail;
  }

  /** What the disk holds between publishes: rounds count up by one, and the two kept roots share no space. */
  ghost predicate Durable(root: Option<Root>, previous: Option<Root>) {
    && (root.None? ==> previous.None?)
    && (root.Some? ==> root.value.round >= 1 && (previous.None? <==> root.value.round == 1))
    && (previous.Some? ==> root.Some? && previous.value.round + 1 == root.value.round)
    && Disjoint(Named(root) + Named(previous)) && Named(root) !! Named(previous)
    && Exact(root) && Exact(previous)
    && (root.Some? ==> Filled(root.value)) && (previous.Some? ==> Filled(previous.value))
  }

  /** A root names all its round wrote: four pages end to end in one extent, filling it, and a small blob that fills
      another. */
  ghost predicate Filled(root: Root) {
    var blobs := root.blobs;
    |blobs| == 5 && blobs[0].extent != blobs[4].extent
    && (forall k :: 0 <= k < 4 ==> blobs[k].extent == blobs[0].extent && blobs[k].length == PartBytes(root.round, k))
    && blobs[0].offset == 0
    && (forall k :: 1 <= k < 4 ==> blobs[k].offset == blobs[k - 1].offset + blobs[k - 1].length)
    && blobs[3].offset + blobs[3].length == blobs[0].extent.length
    && blobs[4].offset == 0 && blobs[4].length == SmallBytes(root.round) == blobs[4].extent.length
  }

  /** Each blob lies in its extent, none shares a byte with another, and together they are as long as the extents. */
  lemma FilledBlobs(root: Root, i: nat, j: nat)
    requires Filled(root) && i < j < 5
    ensures var a, b := root.blobs[i], root.blobs[j];
            a.offset + a.length <= a.extent.length && b.offset + b.length <= b.extent.length
            && (a.extent == b.extent ==> a.offset + a.length <= b.offset)
    ensures root.blobs[i].length == 9_000 + (root.round * 131 + i * 17) % 5_000
    ensures root.blobs[4].length == 300 + root.round
    ensures var blobs := root.blobs;
            blobs[0].length + blobs[1].length + blobs[2].length + blobs[3].length == blobs[0].extent.length
  {
    var blobs := root.blobs;
    assert blobs[1].offset == blobs[0].length && blobs[2].offset == blobs[1].offset + blobs[1].length;
    assert blobs[3].offset == blobs[2].offset + blobs[2].length;
  }

  /** The list a reopened owner reads names every extent of the root exactly once. */
  ghost predicate Exact(root: Option<Root>) {
    var list := ExtentsOf(root);
    && (forall e :: e in list <==> e in Named(root))
    && (forall i, j :: 0 <= i < j < |list| ==> list[i] != list[j])
  }

  class Disk {
    var root: Option<Root>
    var previous: Option<Root>

    constructor ()
      ensures root == None && previous == None
    {
      root, previous := None, None;
    }
  }

  lemma {:induction false} Room(s: set<Extent>) returns (end: nat)
    ensures forall e :: e in s ==> e.offset + e.length <= end
  {
    if s == {} { return 0; }
    var e :| e in s;
    end := Room(s - {e});
    if end < e.offset + e.length { end := e.offset + e.length; }
  }

  /** One owner's extent space: `held` is the complement of the free map. */
  class Space {
    const disk: Disk
    var held: set<Extent>
    var writer: set<Extent>
    var waiting: set<Extent>
    var releasing: set<Extent>

    /** An audit finds the allocated space to be exactly the current root's, the waiting, the writers' and the
        released parts, no two of them sharing an extent, with what only the previous root names among the waiting. */
    ghost predicate Audits()
      reads this, disk
    {
      && held == Named(disk.root) + waiting + writer + releasing
      && Named(disk.previous) <= waiting
      && waiting !! Named(disk.root) && writer !! Named(disk.root) + waiting
      && releasing !! Named(disk.root) + waiting + writer
      && Disjoint(held)
    }

    ghost predicate Valid()
      reads this, disk
    {
      Durable(disk.root, disk.previous) && Audits() && waiting == Named(disk.previous)
    }

    /** Opening reclaims whatever neither kept root names. */
    constructor (disk: Disk)
      requires Durable(disk.root, disk.previous)
      ensures this.disk == disk && Valid() && writer == {} && releasing == {}
    {
      this.disk := disk;
      held, writer := Named(disk.root) + Named(disk.previous), {};
      waiting, releasing := Named(disk.previous), {};
    }

    /** A contiguous range from free space: it overlaps nothing allocated, so nothing either root names. */
    method Reserve(length: nat) returns (e: Extent)
      requires Valid() && length > 0
      modifies this
      ensures Valid() && e !in old(held) && e.length == length && forall h :: h in old(held) ==> Apart(e, h)
      ensures writer == old(writer) + {e} && e !in old(writer) && releasing == old(releasing)
    {
      hide Filled, Exact;
      ghost var end := Room(held);
      assert exists x: Extent :: x.length == length && forall h :: h in held ==> Apart(x, h) by {
        assert Extent(end, length).length == length && forall h :: h in held ==> Apart(Extent(end, length), h);
      }
      e :| e.length == length && forall h :: h in held ==> Apart(e, h);
      assert !Apart(e, e);
      held, writer := held + {e}, writer + {e};
    }

    /** Moves one edge of a writer's extent, within space that is free or its own. */
    method Resize(e: Extent, length: nat) returns (r: Extent)
      requires Valid() && length > 0 && e in writer
      requires length <= e.length || forall h :: h in held ==> h == e || Apart(Extent(e.offset, length), h)
      modifies this
      ensures Valid() && releasing == old(releasing) && r == Extent(e.offset, length)
      ensures writer == old(writer) - {e} + {r} && (r in old(writer) ==> r == e)
    {
      hide Filled, Exact;
      r := Extent(e.offset, length);
      assert r in held && r != e ==> Apart(r, e);
      held, writer := held - {e} + {r}, writer - {e} + {r};
    }

    /** `extend`: the last segment grows where it stands if nothing is in the way, or a new one is taken elsewhere. */
    method Extend(segments: seq<Extent>, more: nat) returns (r: seq<Extent>)
      requires Valid() && more > 0 && Segments(segments)
      modifies this
      ensures Valid() && releasing == old(releasing) && Segments(r)
      ensures writer == old(writer) - (set x | x in segments) + (set x | x in r)
      ensures forall x :: x in r ==> x in segments || x !in old(writer)
    {
      hide Valid, Apart;
      var n := |segments| - 1;
      var last := segments[n];
      if forall h | h in held :: h == last || Apart(Extent(last.offset, last.length + more), h) {
        var grown := Resize(last, last.length + more);
        r := segments[n := grown];
        assert forall x :: x in r <==> x == grown || (x in segments && x != last) by {
          assert r[n] == grown && forall k :: 0 <= k < n ==> r[k] == segments[k];
        }
      } else {
        var e := Reserve(more);
        r := segments + [e];
      }
    }

    /** The segments one builder holds. */
    ghost predicate Segments(segments: seq<Extent>)
      reads this
    {
      && segments != [] && (forall x :: x in segments ==> x in writer)
      && forall i, j :: 0 <= i < j < |segments| ==> segments[i] != segments[j]
    }

    /** Frees a writer's extent no root names. */
    method Discard(e: Extent)
      requires Valid() && e in writer
      modifies this
      ensures Valid() && writer == old(writer) - {e} && releasing == old(releasing)
    {
      hide Filled, Exact;
      held, writer := held - {e}, writer - {e};
    }

    /** `seal`: in place with the unused capacity trimmed, or relocated into one contiguous range. */
    method Seal(segments: seq<Extent>, length: nat) returns (e: Extent)
      requires Valid() && length > 0 && Segments(segments)
      modifies this
      ensures Valid() && e.length == length && releasing == old(releasing)
      ensures writer == old(writer) - (set x | x in segments) + {e}
      ensures e in old(writer) ==> e in segments
    {
      hide Filled, Exact;
      if |segments| == 1 && length <= segments[0].length {
        e := Resize(segments[0], length);
      } else {
        e := Reserve(length);
        ghost var before := writer;
        for i := 0 to |segments|
          invariant Valid() && releasing == old(releasing) && e !in segments
          invariant writer == before - (set k | 0 <= k < i :: segments[k])
        {
          Discard(segments[i]);
        }
      }
    }

    /** Whether every extent to retire is allocated and the current root's, each once. */
    predicate Retirable(retired: seq<Extent>)
      reads this
    {
      && (forall e :: e in retired ==> e in held && e !in writer && e !in waiting && e !in releasing)
      && (forall i, j :: 0 <= i < j < |retired| ==> retired[i].offset != retired[j].offset)
    }

    /** Atomic: the new root is current and the old one previous; what waited may now be released. A list that
        is not retirable is refused before anything is written. */
    method Publish(root: Root, retired: seq<Extent>) returns (accepted: bool)
      requires Valid()
      modifies this, disk
      ensures accepted == old(Retirable(retired))
      ensures !accepted ==> Valid() && disk.root == old(disk.root) && disk.previous == old(disk.previous)
      ensures accepted ==> disk.root == Some(root) && disk.previous == old(disk.root)
      ensures accepted ==> held == old(held) && writer == {} && waiting == (set e | e in retired)
                           && releasing == old(releasing + waiting)
    {
      accepted := Retirable(retired);
      if accepted {
        disk.previous := disk.root;
        disk.root := Some(root);
        releasing, writer, waiting := releasing + waiting, {}, set e | e in retired;
      }
    }

    /** A release in flight resolves. */
    method Release()
      requires Valid()
      modifies this
      ensures Valid() && writer == old(writer) && releasing == {}
      ensures writer == {} ==> held == Named(disk.root) + Named(disk.previous)
    {
      held, releasing := held - releasing, {};
    }
  }

  /** Publishing the writer's extents and retiring exactly the list of the root it replaces is always accepted
      and leaks nothing; a list that forgets an extent of that root leaks it. */
  lemma RetireExactly(disk: Disk, space: Space, retired: seq<Extent>)
    requires space.disk == disk && space.Valid()
    ensures retired == ExtentsOf(disk.root) ==> space.Retirable(retired) && (set e | e in retired) == Named(disk.root)
    ensures space.Retirable(retired) ==> forall e :: e in retired ==> e in Named(disk.root)
  {
    var list := ExtentsOf(disk.root);
    forall i, j | 0 <= i < j < |list| ensures list[i].offset != list[j].offset {
      assert list[i] in space.held && list[j] in space.held && list[i] != list[j];
      assert Apart(list[i], list[j]);
    }
  }

  const PAGE_BYTES: nat := 16_384

  function PartBytes(number: nat, page: nat): nat { 9_000 + (number * 131 + page * 17) % 5_000 }
  function SmallBytes(number: nat): nat { 300 + number }

  /** The kill: whether it strikes here is nobody's choice. */
  method Strikes(mayKill: bool) returns (hit: bool)
    ensures hit ==> mayKill
  {
    hit := *;
    if !mayKill { hit := false; }
  }

  /** The bytes of a round's first pages. */
  function PagesBytes(number: nat, pages: nat): nat {
    if pages == 0 then 0 else PagesBytes(number, pages - 1) + PartBytes(number, pages - 1)
  }

  /** A chunk's appended pages: where each starts, and its length. */
  datatype Page = Page(offset: nat, length: nat)

  ghost predicate Appended(pages: seq<Page>, number: nat) {
    forall k :: 0 <= k < |pages| ==> pages[k] == Page(PagesBytes(number, k), PartBytes(number, k))
  }

  datatype Written = Written(sealed: Extent, pages: seq<Page>, tail: Extent)

  /** The writing phase of one round: a streamed chunk of four pages and a small blob, sealed. None: killed. */
  method WriteRound(space: Space, number: nat, mayKill: bool) returns (r: Option<Written>)
    requires space.Valid() && space.writer == {}
    modifies space
    ensures !mayKill ==> r.Some?
    ensures r.Some? ==>
              space.Valid() && space.writer == {r.value.sealed, r.value.tail} && r.value.sealed != r.value.tail
    ensures r.Some? ==> |r.value.pages| == 4 && Appended(r.value.pages, number)
    ensures r.Some? ==> r.value.sealed.length == PagesBytes(number, 4) && r.value.tail.length == SmallBytes(number)
  {
    hide Space.Valid;
    var struck: bool;
    var e := space.Reserve(PAGE_BYTES);
    var segments, capacity: nat, length: nat := [e], PAGE_BYTES, 0;
    var pages: seq<Page> := [];
    var small, tail := number % 2 == 0, e;
    if small { tail := space.Reserve(SmallBytes(number)); }
    struck := Strikes(mayKill);
    if struck { return None; }
    for page := 0 to 4
      invariant space.Valid() && space.Segments(segments) && (page > 0 ==> length > 0)
      invariant space.writer == (set x | x in segments) + (if small then {tail} else {})
      invariant small ==> tail !in segments && tail.length == SmallBytes(number)
      invariant |pages| == page && Appended(pages, number) && length == PagesBytes(number, page)
    {
      var part := PartBytes(number, page);
      if length + part > capacity {
        var more := if part > PAGE_BYTES then part else PAGE_BYTES;
        segments := space.Extend(segments, more);
        capacity := capacity + more;
      }
      pages := pages + [Page(length, part)];
      length := length + part;
      struck := Strikes(mayKill);
      if struck { return None; }
    }
    var sealed := space.Seal(segments, length);
    if !small { tail := space.Reserve(SmallBytes(number)); }
    r := Some(Written(sealed, pages, tail));
  }

  /** What a round leaves, or that the worker was killed, before its publish took effect or after. */
  datatype Outcome = Killed(published: bool) | Finished(extents: seq<Extent>)

  /** One round, killed at any point or not: writes, then publishes `number` and retires `previous`. */
  method Round(space: Space, number: nat, previous: seq<Extent>, mayKill: bool) returns (r: Outcome)
    requires space.Valid() && space.writer == {}
    requires previous == ExtentsOf(space.disk.root) && number == RoundOf(space.disk.root) + 1
    modifies space, space.disk
    ensures Durable(space.disk.root, space.disk.previous) && (!mayKill ==> r.Finished?)
    ensures r == Killed(false) ==>
              space.disk.root == old(space.disk.root) && space.disk.previous == old(space.disk.previous)
    ensures r != Killed(false) ==> space.disk.previous == old(space.disk.root) && RoundOf(space.disk.root) == number
    ensures r != Killed(false) ==> Filled(space.disk.root.value)
    ensures r.Finished? ==> space.Valid() && space.writer == {} && r.extents == ExtentsOf(space.disk.root)
  {
    hide Filled, Appended, PagesBytes, PartBytes;
    var disk := space.disk;
    var struck: bool;
    var written := WriteRound(space, number, mayKill);
    if written.None? { return Killed(false); }
    var Written(sealed, pages, tail) := written.value;
    struck := Strikes(mayKill);
    if struck { return Killed(false); }
    var first := seq(|pages|, k requires 0 <= k < |pages| => Blob(sealed, pages[k].offset, pages[k].length));
    var second := [Blob(tail, 0, SmallBytes(number))];
    assert sealed.offset != tail.offset by { assert Apart(sealed, tail); }
    RoundExtents(number, sealed, first, tail, second);
    RetireExactly(disk, space, previous);
    RoundFilled(number, written.value, first, second);
    var accepted := space.Publish(Root(number, first + second), previous);
    assert accepted && space.Valid();
    struck := Strikes(mayKill);
    if struck { return Killed(true); }
    if * { space.Release(); }
    r := Finished([sealed, tail]);
  }

  lemma RoundFilled(number: nat, written: Written, first: seq<Blob>, second: seq<Blob>)
    requires |written.pages| == 4 && Appended(written.pages, number) && written.sealed != written.tail
    requires written.sealed.length == PagesBytes(number, 4) && written.tail.length == SmallBytes(number)
    requires |first| == 4
             && forall k :: 0 <= k < 4 ==>
                  first[k] == Blob(written.sealed, written.pages[k].offset, written.pages[k].length)
    requires second == [Blob(written.tail, 0, SmallBytes(number))]
    ensures Filled(Root(number, first + second))
  {
    var blobs := first + second;
    assert forall k :: 0 <= k < 4 ==> blobs[k] == first[k];
    assert blobs[4] == second[0];
    hide PartBytes;
    assert forall k :: 1 <= k < 4 ==> PagesBytes(number, k) == PagesBytes(number, k - 1) + PartBytes(number, k - 1);
  }

  function RoundOf(root: Option<Root>): nat { if root.Some? then root.value.round else 0 }

  /** `publish-loop`: opens the store and runs rounds until it is killed, at any point once `warmup` of them
      are published. `announced` is the highest round whose publish resolved: all its messages may say. */
  method PublishLoop(disk: Disk, rounds: nat, warmup: nat) returns (announced: nat)
    requires Durable(disk.root, disk.previous)
    modifies disk
    ensures Durable(disk.root, disk.previous)
    ensures announced <= RoundOf(disk.root) <= announced + 1
    ensures announced >= RoundOf(old(disk.root)) + (if rounds < warmup then rounds else warmup)
  {
    var space := new Space(disk);
    var previous := ExtentsOf(disk.root);
    announced := RoundOf(disk.root);
    for left := 0 to rounds
      invariant space.Valid() && space.writer == {} && space.disk == disk && fresh(space)
      invariant announced == RoundOf(disk.root) == RoundOf(old(disk.root)) + left
      invariant previous == ExtentsOf(disk.root)
    {
      var r := Round(space, announced + 1, previous, left >= warmup);
      if r.Killed? { return; }
      previous := r.extents;
      announced := announced + 1;
    }
  }

  datatype Verified = Passed(round: nat, previous: Option<nat>) | NoRoot | TooOld | PreviousMismatch | Leaked

  /** `verify` on a fresh owner: the root is at least `minAcked`, its previous root is one round older, the
      free map is exact before and after one more round. */
  method Verify(disk: Disk, minAcked: nat) returns (r: Verified)
    requires Durable(disk.root, disk.previous)
    modifies disk
    ensures Durable(disk.root, disk.previous)
    ensures old(disk.root).None? <==> r == NoRoot
    ensures old(disk.root).Some? && RoundOf(old(disk.root)) < minAcked <==> r == TooOld
    ensures r.Passed? || r == NoRoot || r == TooOld
    ensures r.Passed? ==> r.round == RoundOf(old(disk.root)) && RoundOf(disk.root) == r.round + 1
                          && (r.round > 1 ==> r.previous == Some(r.round - 1))
  {
    var space := new Space(disk);
    var root, previous := disk.root, disk.previous;
    if root.None? { return NoRoot; }
    if root.value.round < minAcked { return TooOld; }
    if root.value.round > 1 && (previous.None?
        || previous.value.round != root.value.round - 1) { return PreviousMismatch; }
    if space.held != Named(root) + Named(previous) { return Leaked; }
    var finished := Round(space, root.value.round + 1, ExtentsOf(root), false);
    space.Release();
    if space.held != Named(disk.root) + Named(disk.previous) { return Leaked; }
    r := Passed(root.value.round, if previous.Some? then Some(previous.value.round) else None);
  }

  /** `runKillDuringPublish`: over any number of kills at any point, every verification passes. */
  method RunKillDuringPublish(iterations: nat, warmups: seq<nat>) returns (results: seq<Verified>)
    requires |warmups| == iterations && forall k :: 0 <= k < iterations ==> warmups[k] >= 2
    ensures |results| == iterations && forall k :: 0 <= k < iterations ==> results[k].Passed?
  {
    var disk := new Disk();
    var acked := 0;
    results := [];
    for iteration := 0 to iterations
      invariant Durable(disk.root, disk.previous) && acked <= RoundOf(disk.root) && fresh(disk)
      invariant |results| == iteration && forall k :: 0 <= k < iteration ==> results[k].Passed?
    {
      var announced := PublishLoop(disk, 1_000_000, warmups[iteration]);
      // What the page heard before the kill: any of the announced rounds.
      var heard: nat :| heard <= announced;
      if acked < heard { acked := heard; }
      var verified := Verify(disk, acked);
      results := results + [verified];
      acked := verified.round + 1;
    }
  }
}
