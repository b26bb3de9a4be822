/** The budgeted evidence capture (captureOpfsEvidence in packages/core/browser-tests/opfs-evidence.ts): files copied
    chunk by chunk, with short reads, partial and failed writes, a deadline and a byte limit at any point. */
module Capture {
  import opened Wrappers

  const CAPTURE_CHUNK_BYTES: nat := 1024 * 1024

  /** What the browser and the disk do, call by call. A digest is represented by the bytes that went into it. */
  datatype Opening = Opened | TargetFails | SnapshotFails | SnapshotExpires

  datatype ReadEvent = Full | Short(length: nat) | ReadFails | ReadExpires

  datatype WriteEvent = Wrote(length: nat) | WriteFails(torn: seq<byte>)

  datatype Env = Env(opening: Opening, read: nat -> ReadEvent, write: nat -> WriteEvent, closes: bool)

  datatype Operation = Enumerate | Limit | Open | Read | Timeout

  datatype Captured = Captured(size: nat, capturedBytes: nat, digest: Option<seq<byte>>, error: Option<Operation>,
                               artifact: seq<byte>)

  /** `data` written at `at`, over whatever is there. */
  function Put(artifact: seq<byte>, at: nat, data: seq<byte>): seq<byte>
    requires at <= |artifact|
  {
    artifact[..at] + data + if at + |data| < |artifact| then artifact[at + |data|..] else []
  }

  /** The artifact starts with the captured bytes of the source, a digest is of exactly those, and only a file
      with an error is not whole. */
  ghost predicate Faithful(c: Captured, source: seq<byte>) {
    c.capturedBytes <= |source| && c.capturedBytes <= |c.artifact|
    && c.artifact[..c.capturedBytes] == source[..c.capturedBytes]
    && (c.digest.Some? ==> c.digest.value == source[..c.capturedBytes])
    && (c.error == None ==> c.capturedBytes == c.size == |source| && c.digest.Some?)
  }

  /** Nothing goes wrong with this file. */
  ghost predicate Calm(e: Env) {
    e.opening == Opened && e.closes
    && (forall i :: e.read(i) == Full) && (forall i :: e.write(i).Wrote? && e.write(i).length > 0)
  }

  // ── What the environment makes of a file ─────────────────────────────────────────────────────

  /** How far copying gets: the bytes captured, the write calls made by then, and what stopped it. */
  datatype Copy = Copy(bytes: nat, writes: nat, stopped: Option<Operation>)

  /** Writing `left` bytes of a chunk, from write call `w` on. */
  function Writing(e: Env, w: nat, left: nat): Copy
    decreases left
  {
    if left == 0 then Copy(0, w, None)
    else
      match e.write(w)
      case WriteFails(_) => Copy(0, w + 1, Some(Read))
      case Wrote(length) =>
        var n := Least(length, left);
        if n == 0 then Copy(0, w + 1, Some(Read))
        else var rest := Writing(e, w + 1, left - n); rest.(bytes := n + rest.bytes)
  }

  /** Whether reading chunk `i` of `length` bytes gives just those. */
  predicate Reads(e: Env, i: nat, length: nat) { e.read(i) == Full || e.read(i) == Short(length) }

  /** Copying `left` bytes, from chunk `i` and write call `w` on. */
  function Copying(e: Env, i: nat, w: nat, left: nat): Copy
    decreases left
  {
    if left == 0 then Copy(0, w, None)
    else
      var length := Least(1_048_576, left);
      if !Reads(e, i, length) then Copy(0, w, Some(if e.read(i) == ReadExpires then Timeout else Read))
      else
        var chunk := Writing(e, w, length);
        if chunk.stopped.Some? then chunk
        else var rest := Copying(e, i + 1, chunk.writes, left - length); rest.(bytes := length + rest.bytes)
  }

  /** The error of a file of this size under this budget, and the bytes captured of it. */
  function ErrorOf(e: Env, size: nat, budget: nat): Option<Operation> {
    match e.opening
    case SnapshotExpires => Some(Timeout)
    case SnapshotFails => Some(Open)
    case TargetFails => Some(if size == 0 then Open else Read)
    case Opened =>
      var stopped := Copying(e, 0, 0, Least(size, budget)).stopped;
      if !e.closes then Some(if size == 0 then Open else Read)
      else if stopped.Some? then stopped
      else if budget < size then Some(Limit)
      else None
  }

  function BytesOf(e: Env, size: nat, budget: nat): nat {
    if e.opening == Opened then Copying(e, 0, 0, Least(size, budget)).bytes else 0
  }

  /** Nothing that the capture of a file this size does goes wrong: it opens and closes, each chunk it needs reads
      whole, and each write call it makes takes a byte at least. */
  ghost predicate Fine(e: Env, size: nat) {
    e.opening == Opened && e.closes
    && AllRead(e, 0, size)
    && (forall w: nat :: w < Copying(e, 0, 0, size).writes ==> Takes(e, w))
  }

  predicate Takes(e: Env, w: nat) { e.write(w).Wrote? && e.write(w).length > 0 }

  lemma {:induction false} WritingStops(e: Env, w: nat, left: nat)
    ensures var c := Writing(e, w, left);
            w <= c.writes && c.bytes <= left && (c.stopped == None ==> c.bytes == left)
            && (c.stopped == None <==> forall v: nat :: w <= v < c.writes ==> Takes(e, v))
            && (c.stopped.Some? ==> c.stopped == Some(Read) && c.writes > w && !Takes(e, c.writes - 1))
    decreases left
  {
    if left > 0 && Takes(e, w) { WritingStops(e, w + 1, left - Least(e.write(w).length, left)); }
  }

  /** Each chunk of `left` bytes, from chunk `i` on, reads whole. */
  ghost predicate AllRead(e: Env, i: nat, left: nat) {
    forall k: nat :: 1_048_576 * k < left ==> ReadsAt(e, i, k, left)
  }

  predicate ReadsAt(e: Env, i: nat, k: nat, left: nat)
    requires 1_048_576 * k < left
  {
    e.read(i + k) == Full || e.read(i + k) == Short(Least(1_048_576, left - 1_048_576 * k))
  }

  lemma AllReadSplits(e: Env, i: nat, left: nat)
    requires left > 0
    ensures var length := Least(1_048_576, left);
            AllRead(e, i, left) <==> Reads(e, i, length) && AllRead(e, i + 1, left - length)
  {
    var rest := left - Least(1_048_576, left);
    if AllRead(e, i, left) {
      assert ReadsAt(e, i, 0, left);
      forall k: nat | 1_048_576 * k < rest ensures ReadsAt(e, i + 1, k, rest) { assert ReadsAt(e, i, k + 1, left); }
    }
    if Reads(e, i, Least(1_048_576, left)) && AllRead(e, i + 1, rest) {
      forall k: nat | 1_048_576 * k < left ensures ReadsAt(e, i, k, left) {
        if k > 0 { assert ReadsAt(e, i + 1, k - 1, rest); }
      }
    }
  }

  lemma {:induction false} CopyingStops(e: Env, i: nat, w: nat, left: nat)
    ensures var c := Copying(e, i, w, left);
            w <= c.writes && c.bytes <= left && (c.stopped == None ==> c.bytes == left)
            && (c.stopped == None <==> AllRead(e, i, left) && forall v: nat :: w <= v < c.writes ==> Takes(e, v))
            && (c.stopped.Some? ==> c.stopped.value in {Read, Timeout})
    decreases left
  {
    if left > 0 {
      hide Reads, Takes, Writing, AllRead;
      var length := Least(1_048_576, left);
      var chunk := Writing(e, w, length);
      AllReadSplits(e, i, left);
      WritingStops(e, w, length);
      CopyingStops(e, i + 1, chunk.writes, left - length);
    }
  }

  /** A file has no error exactly when nothing goes wrong with it and the budget covers it; it is then whole. */
  lemma NoErrorIff(e: Env, size: nat, budget: nat)
    ensures ErrorOf(e, size, budget) == None <==> Fine(e, size) && size <= budget
    ensures ErrorOf(e, size, budget) == None ==> BytesOf(e, size, budget) == size
    ensures BytesOf(e, size, budget) <= Least(size, budget)
  {
    CopyingStops(e, 0, 0, Least(size, budget));
  }

  /** The other errors: the deadline is reported only for what expired, the byte limit only for a file that was copied
      as far as the budget goes, and an open error only for a file of which no size is known or no byte is due. */
  lemma ErrorsMean(e: Env, size: nat, budget: nat)
    ensures ErrorOf(e, size, budget) == Some(Limit) <==>
            e.opening == Opened && e.closes && budget < size && Copying(e, 0, 0, budget).stopped == None
    ensures ErrorOf(e, size, budget) == Some(Open) <==>
            || e.opening == SnapshotFails
            || (size == 0 && (e.opening == TargetFails || (e.opening == Opened && !e.closes)))
    ensures ErrorOf(e, size, budget) == Some(Timeout) <==>
            e.opening == SnapshotExpires
            || (e.opening == Opened && e.closes && Copying(e, 0, 0, Least(size, budget)).stopped == Some(Timeout))
    ensures ErrorOf(e, size, budget) != Some(Enumerate)
  {
    CopyingStops(e, 0, 0, Least(size, budget));
  }

  predicate ExpiresAt(e: Env, i: nat, k: nat) { e.read(i + k) == ReadExpires }

  /** A read that expires is what ends the copying with the deadline. */
  lemma {:induction false} ExpiredRead(e: Env, i: nat, w: nat, left: nat)
    ensures Copying(e, i, w, left).stopped == Some(Timeout) ==>
              exists k: nat :: 1_048_576 * k < left && ExpiresAt(e, i, k)
    decreases left
  {
    if left > 0 && Copying(e, i, w, left).stopped == Some(Timeout) {
      var length := Least(1_048_576, left);
      if Reads(e, i, length) {
        WritingStops(e, w, length);
        ExpiredRead(e, i + 1, Writing(e, w, length).writes, left - length);
        var k: nat :| 1_048_576 * k < left - length && ExpiresAt(e, i + 1, k);
        assert 1_048_576 * (k + 1) < left && ExpiresAt(e, i, k + 1);
      } else {
        assert ExpiresAt(e, i, 0);
      }
    }
  }

  // ── Along the loops ──────────────────────────────────────────────────────────────────────────

  lemma PutKeeps(artifact: seq<byte>, at: nat, data: seq<byte>)
    requires at <= |artifact|
    ensures |Put(artifact, at, data)| >= at + |data|
    ensures Put(artifact, at, data)[..at] == artifact[..at]
    ensures Put(artifact, at, data)[..at + |data|] == artifact[..at] + data
  {
  }

  lemma PartOf(source: seq<byte>, bytes: seq<byte>, offset: nat, written: nat, n: nat)
    requires written + n <= |bytes| && offset + |bytes| <= |source| && bytes == source[offset..offset + |bytes|]
    ensures bytes[written..written + n] == source[offset + written..offset + written + n]
  {
    var part, there := bytes[written..written + n], source[offset + written..offset + written + n];
    forall k | 0 <= k < n ensures part[k] == there[k] {
      assert source[offset..offset + |bytes|][written + k] == source[offset + (written + k)];
    }
    assert part == there;
  }

  lemma Advances(source: seq<byte>, captured: nat, artifact: seq<byte>, n: nat)
    requires captured + n <= |source| && captured <= |artifact| && artifact[..captured] == source[..captured]
    ensures var part := source[captured..captured + n];
      && |Put(artifact, captured, part)| >= captured + n
      && Put(artifact, captured, part)[..captured + n] == source[..captured + n]
      && source[..captured] + part == source[..captured + n]
  {
    PutKeeps(artifact, captured, source[captured..captured + n]);
  }

  /** `done` bytes of the chunk are written, by the write calls from `first` up to `w`. */
  ghost predicate WrittenBy(e: Env, first: nat, size: nat, w: nat, done: nat)
    requires done <= size
  {
    Writing(e, first, size) == var rest := Writing(e, w, size - done); rest.(bytes := done + rest.bytes)
  }

  lemma WritesNone(e: Env, first: nat, size: nat)
    ensures WrittenBy(e, first, size, first, 0)
  {
  }

  /** What the next write call leads to. */
  lemma WritesOn(e: Env, first: nat, size: nat, w: nat, done: nat)
    requires done <= size && WrittenBy(e, first, size, w, done)
    ensures var c := Writing(e, first, size);
      if done == size then c == Copy(done, w, None)
      else if !Takes(e, w) then c == Copy(done, w + 1, Some(Read))
      else WrittenBy(e, first, size, w + 1, done + Least(e.write(w).length, size - done))
  {
  }

  ghost predicate CopiedBy(e: Env, first: nat, size: nat, i: nat, w: nat, done: nat)
    requires done <= size
  {
    Copying(e, 0, first, size) == var rest := Copying(e, i, w, size - done); rest.(bytes := done + rest.bytes)
  }

  lemma CopiesNone(e: Env, first: nat, size: nat)
    ensures CopiedBy(e, first, size, 0, first, 0)
  {
  }

  /** What the next chunk leads to. */
  lemma CopiesOn(e: Env, first: nat, size: nat, i: nat, w: nat, done: nat)
    requires done <= size && CopiedBy(e, first, size, i, w, done)
    ensures var c, length := Copying(e, 0, first, size), Least(1_048_576, size - done);
      if done == size then c == Copy(done, w, None)
      else if !Reads(e, i, length) then c == Copy(done, w, Some(if e.read(i) == ReadExpires then Timeout else Read))
      else
        var chunk := Writing(e, w, length);
        if chunk.stopped.Some? then c == chunk.(bytes := done + chunk.bytes)
        else done + length <= size && CopiedBy(e, first, size, i + 1, chunk.writes, done + length)
  {
    hide Writing;
  }

  lemma CalmIsFine(e: Env, size: nat)
    requires Calm(e)
    ensures Fine(e, size)
  {
  }

  class Capturer {
    const maxBytes: nat
    var total: nat
    var files: seq<Captured>
    var errors: seq<Operation>

    // The file being captured.
    var captured: nat
    var artifact: seq<byte>
    var hashed: seq<byte>
    var writes: nat

    constructor (maxBytes: nat)
      requires maxBytes > 0
      ensures this.maxBytes == maxBytes && total == 0 && files == [] && errors == []
    {
      this.maxBytes := maxBytes;
      total, files, errors := 0, [], [];
      captured, artifact, hashed, writes := 0, [], [], 0;
    }

    ghost predicate InStep(source: seq<byte>, before: nat)
      reads this
    {
      captured <= |source| && captured <= |artifact| && artifact[..captured] == source[..captured]
      && hashed == source[..captured] && total == before + captured <= maxBytes
    }

    /** Writes one chunk as far as the disk takes it; every reported byte is hashed and counted. */
    method WriteChunk(source: seq<byte>, bytes: seq<byte>, env: Env, ghost before: nat) returns (failed: bool)
      requires InStep(source, before)
      requires captured + |bytes| <= |source| && bytes == source[captured..captured + |bytes|]
      requires total + |bytes| <= maxBytes
      modifies this`captured, this`artifact, this`hashed, this`total, this`writes
      ensures InStep(source, before) && old(captured) <= captured <= old(captured) + |bytes|
      ensures var c := Writing(env, old(writes), |bytes|);
              captured == old(captured) + c.bytes && writes == c.writes && (failed <==> c.stopped.Some?)
    {
      hide WrittenBy, Writing, Put;
      var offset, written := captured, 0;
      WritesNone(env, writes, |bytes|);
      while written < |bytes|
        invariant written <= |bytes| && captured == offset + written && offset == old(captured)
        invariant WrittenBy(env, old(writes), |bytes|, writes, written)
        invariant InStep(source, before)
        decreases |bytes| - written
      {
        WritesOn(env, old(writes), |bytes|, writes, written);
        var call := writes;
        writes := writes + 1;
        match env.write(call) {
          case Wrote(length) =>
            var n := Least(length, |bytes| - written);
            if n == 0 { return true; }
            var part := bytes[written..written + n];
            PartOf(source, bytes, offset, written, n);
            Advances(source, captured, artifact, n);
            artifact := Put(artifact, offset + written, part);
            hashed := hashed + part;
            written, captured, total := written + n, captured + n, total + n;
          case WriteFails(torn) =>
            PutKeeps(artifact, captured, torn);
            artifact := Put(artifact, offset + written, torn);
            return true;
        }
      }
      WritesOn(env, old(writes), |bytes|, writes, written);
      return false;
    }

    /** Copies up to `captureSize` bytes, a chunk at a time, until something stops it. */
    method CopyChunks(source: seq<byte>, captureSize: nat, env: Env) returns (stopped: Option<Operation>)
      requires InStep(source, total) && captured == 0 && captureSize <= |source| && total + captureSize <= maxBytes
      modifies this`captured, this`artifact, this`hashed, this`total, this`writes
      ensures InStep(source, old(total)) && captured <= captureSize
      ensures var c := Copying(env, 0, old(writes), captureSize); captured == c.bytes && stopped == c.stopped
    {
      hide CopiedBy, Copying, Writing;
      var chunk := 0;
      CopiesNone(env, writes, captureSize);
      while captured < captureSize
        invariant InStep(source, old(total)) && captured <= captureSize
        invariant CopiedBy(env, old(writes), captureSize, chunk, writes, captured)
        decreases captureSize - captured
      {
        var length := Least(CAPTURE_CHUNK_BYTES, captureSize - captured);
        CopiesOn(env, old(writes), captureSize, chunk, writes, captured);
        match env.read(chunk) {
          case ReadExpires => return Some(Timeout);
          case ReadFails => return Some(Read);
          case Short(n) => if n != length { return Some(Read); }
          case Full =>
        }
        chunk := chunk + 1;
        WritingStops(env, writes, length);
        var failed := WriteChunk(source, source[captured..captured + length], env, old(total));
        if failed { return Some(Read); }
      }
      CopiesOn(env, old(writes), captureSize, chunk, writes, captured);
      return None;
    }

    method CaptureFile(source: seq<byte>, env: Env) returns (timedOut: bool)
      requires total <= maxBytes
      modifies this
      ensures |files| == |old(files)| + 1 && files == old(files) + [files[|old(files)|]]
      ensures var c := files[|files| - 1];
              Faithful(c, source) && total == old(total) + c.capturedBytes <= maxBytes
              && errors == (if c.error == None then old(errors) else old(errors) + [c.error.value])
              && (timedOut <==> c.error == Some(Timeout))
              && c.error == ErrorOf(env, |source|, maxBytes - old(total))
              && c.capturedBytes == BytesOf(env, |source|, maxBytes - old(total))
              && (c.digest.Some? <==> env.opening == Opened)
              && c.size == if env.opening.SnapshotFails? || env.opening.SnapshotExpires? then 0 else |source|
    {
      captured, artifact, hashed, writes := 0, [], [], 0;
      var size := if env.opening.SnapshotFails? || env.opening.SnapshotExpires? then 0 else |source|;
      var stopped: Option<Operation> := None;
      var digest: Option<seq<byte>> := None;
      match env.opening {
        case SnapshotExpires => stopped := Some(Timeout);
        case SnapshotFails => stopped := Some(Open);
        case TargetFails => stopped := Some(if size == 0 then Open else Read);
        case Opened =>
          var captureSize := Least(size, maxBytes - total);
          stopped := CopyChunks(source, captureSize, env);
          digest := Some(hashed);
          if !env.closes { stopped := Some(if size == 0 then Open else Read); }
          if stopped == None && captured != size { stopped := Some(Limit); }
      }
      CopyingStops(env, 0, 0, Least(|source|, maxBytes - old(total)));
      files := files + [Captured(size, captured, digest, stopped, artifact)];
      if stopped.Some? { errors := errors + [stopped.value]; }
      return stopped == Some(Timeout);
    }

    /** The whole capture: `listing` is None when the page or the listing fails, and else the files found and
        whether the listing itself reported errors. A deadline ends it, and the files after it are not listed. */
    method CaptureAll(listing: Option<seq<seq<byte>>>, incomplete: bool, envs: seq<Env>) returns (complete: bool)
      requires total == 0 && files == [] && errors == []
      requires listing.Some? ==> |envs| == |listing.value|
      modifies this
      ensures total == Sum(files) <= maxBytes
      ensures AllFaithful(files, Listed(listing))
      ensures errors == (if listing == None || incomplete then [Enumerate] else []) + ErrorsIn(files)
      ensures listing.Some? ==> Judged(files, envs, listing.value, maxBytes) && Reaches(files, listing.value)
      ensures complete <==> errors == []
      ensures complete ==>
                |files| == |listing.value| && forall i :: 0 <= i < |files| ==> Whole(files[i], listing.value[i])
      ensures complete <==> listing.Some? && !incomplete && Bytes(listing.value) <= maxBytes
                            && forall i :: 0 <= i < |envs| ==> Fine(envs[i], |listing.value[i]|)
    {
      if listing == None {
        errors := [Enumerate];
        return false;
      }
      if incomplete { errors := [Enumerate]; }
      CaptureEach(listing.value, envs);
      complete := |errors| == 0
        && forall k :: 0 <= k < |files| ==> files[k].capturedBytes == files[k].size && files[k].error == None;
      NoErrorNoLoss(files, listing.value);
      NoErrorsIn(files);
      assert listing.value[..|listing.value|] == listing.value;
      if NoError(files) { AllFine(files, envs, listing.value, maxBytes); }
      if Bytes(listing.value) <= maxBytes && forall i :: 0 <= i < |envs| ==> Fine(envs[i], |listing.value[i]|) {
        FineNoError(files, envs, listing.value, maxBytes);
      }
    }

    method CaptureEach(sources: seq<seq<byte>>, envs: seq<Env>)
      requires total == 0 && files == [] && |envs| == |sources|
      modifies this
      ensures total == Sum(files) <= maxBytes && AllFaithful(files, sources)
      ensures Judged(files, envs, sources, maxBytes) && Reaches(files, sources)
      ensures errors == old(errors) + ErrorsIn(files)
    {
      hide Faithful, AllFaithful, Judged, Reaches, OnTime, Bytes, Sum, ErrorOf, BytesOf, ErrorsIn;
      var i := 0;
      var timedOut := false;
      NothingYet(sources);
      NoneJudged(envs, sources, maxBytes);
      while i < |sources| && !timedOut
        invariant i <= |sources| && |files| == i && total == Sum(files) <= maxBytes && AllFaithful(files, sources)
        invariant Judged(files, envs, sources, maxBytes) && errors == old(errors) + ErrorsIn(files)
        invariant OnTime(files, timedOut)
        decreases |sources| - i, !timedOut
      {
        ghost var before := files;
        timedOut := CaptureFile(sources[i], envs[i]);
        OneFileMore(before, files[i], envs, sources, maxBytes);
        StaysOnTime(before, files[i]);
        i := i + 1;
      }
      Reached(files, sources, timedOut);
    }
  }

  /** Each file's error and length are what its own calls and the budget left for it make of it. */
  ghost predicate Judged(files: seq<Captured>, envs: seq<Env>, sources: seq<seq<byte>>, maxBytes: nat)
    requires |envs| == |sources|
  {
    |files| <= |sources| && forall i :: 0 <= i < |files| ==> JudgedAt(files, envs, sources, maxBytes, i)
  }

  ghost predicate JudgedAt(files: seq<Captured>, envs: seq<Env>, sources: seq<seq<byte>>, maxBytes: nat, i: nat)
    requires i < |files| <= |sources| == |envs|
  {
    var used := Sum(files[..i]);
    used <= maxBytes
    && files[i].error == ErrorOf(envs[i], |sources[i]|, maxBytes - used)
    && files[i].capturedBytes == BytesOf(envs[i], |sources[i]|, maxBytes - used)
  }

  /** Only the deadline ends the capture: after any other error the next file is captured. */
  ghost predicate Reaches(files: seq<Captured>, sources: seq<seq<byte>>) {
    |files| <= |sources|
    && (forall i :: 0 <= i < |files| - 1 ==> files[i].error != Some(Timeout))
    && (|files| < |sources| ==> files != [] && files[|files| - 1].error == Some(Timeout))
  }

  /** The errors of the files, in order. */
  function ErrorsIn(files: seq<Captured>): seq<Operation> {
    if files == [] then []
    else
      ErrorsIn(files[..|files| - 1])
      + if files[|files| - 1].error.Some? then [files[|files| - 1].error.value] else []
  }

  lemma JudgedGrows(files: seq<Captured>, c: Captured, envs: seq<Env>, sources: seq<seq<byte>>, maxBytes: nat)
    requires |files| < |sources| == |envs| && Judged(files, envs, sources, maxBytes) && Sum(files) <= maxBytes
    requires c.error == ErrorOf(envs[|files|], |sources[|files|]|, maxBytes - Sum(files))
    requires c.capturedBytes == BytesOf(envs[|files|], |sources[|files|]|, maxBytes - Sum(files))
    ensures Judged(files + [c], envs, sources, maxBytes)
    ensures ErrorsIn(files + [c]) == ErrorsIn(files) + if c.error.Some? then [c.error.value] else []
  {
    hide ErrorOf, BytesOf, Sum;
    var more := files + [c];
    assert more[..|files|] == files;
    forall i | 0 <= i < |more| ensures JudgedAt(more, envs, sources, maxBytes, i) {
      if i < |files| {
        assert JudgedAt(files, envs, sources, maxBytes, i);
        assert more[..i] == files[..i];
      }
    }
  }

  lemma {:induction false} NoErrorsIn(files: seq<Captured>)
    ensures ErrorsIn(files) == [] <==> NoError(files)
  {
    if files != [] { NoErrorsIn(files[..|files| - 1]); }
  }

  /** Files without error used their sizes of the budget, and nothing went wrong with any. */
  lemma {:induction false} AllFine(files: seq<Captured>, envs: seq<Env>, sources: seq<seq<byte>>, maxBytes: nat)
    requires |files| <= |sources| == |envs| && Judged(files, envs, sources, maxBytes) && NoError(files)
    ensures Sum(files) == Bytes(sources[..|files|]) <= maxBytes
    ensures forall i :: 0 <= i < |files| ==> Fine(envs[i], |sources[i]|)
    decreases |files|
  {
    if files != [] {
      var last := |files| - 1;
      Earlier(files, envs, sources, maxBytes);
      AllFine(files[..last], envs, sources, maxBytes);
      BytesGrow(sources, last);
      assert JudgedAt(files, envs, sources, maxBytes, last);
      NoErrorIff(envs[last], |sources[last]|, maxBytes - Sum(files[..last]));
      hide Fine, ErrorOf, BytesOf, Judged;
    } else {
      NothingYet(sources);
    }
  }

  lemma Earlier(files: seq<Captured>, envs: seq<Env>, sources: seq<seq<byte>>, maxBytes: nat)
    requires 0 < |files| <= |sources| == |envs| && Judged(files, envs, sources, maxBytes)
    ensures Judged(files[..|files| - 1], envs, sources, maxBytes)
  {
    hide ErrorOf, BytesOf, Sum;
    var before := files[..|files| - 1];
    forall i | 0 <= i < |before| ensures JudgedAt(before, envs, sources, maxBytes, i) {
      assert JudgedAt(files, envs, sources, maxBytes, i) && before[..i] == files[..i];
    }
  }

  /** Where nothing goes wrong with any file and the budget covers all, none has an error. */
  lemma {:induction false} FineNoError(files: seq<Captured>, envs: seq<Env>, sources: seq<seq<byte>>, maxBytes: nat)
    requires |files| <= |sources| == |envs| && Judged(files, envs, sources, maxBytes) && Bytes(sources) <= maxBytes
    requires forall i :: 0 <= i < |envs| ==> Fine(envs[i], |sources[i]|)
    ensures NoError(files) && Sum(files) == Bytes(sources[..|files|])
    decreases |files|
  {
    if files != [] {
      var last := |files| - 1;
      Earlier(files, envs, sources, maxBytes);
      FineNoError(files[..last], envs, sources, maxBytes);
      BytesGrow(sources, last);
      assert JudgedAt(files, envs, sources, maxBytes, last);
      NoErrorIff(envs[last], |sources[last]|, maxBytes - Sum(files[..last]));
      hide Fine, ErrorOf, BytesOf, Judged;
    } else {
      NothingYet(sources);
    }
  }

  ghost predicate AllFaithful(files: seq<Captured>, sources: seq<seq<byte>>) {
    |files| <= |sources| && forall i :: 0 <= i < |files| ==> Faithful(files[i], sources[i])
  }

  ghost predicate NoError(files: seq<Captured>) { forall k :: 0 <= k < |files| ==> files[k].error == None }

  lemma NothingYet(sources: seq<seq<byte>>)
    ensures Sum([]) == 0 && Bytes(sources[..0]) == 0 && ErrorsIn([]) == []
  {
  }

  /** Only the last file can have met the deadline. */
  ghost predicate OnTime(files: seq<Captured>, timedOut: bool) {
    (forall k :: 0 <= k < |files| - 1 ==> files[k].error != Some(Timeout))
    && (timedOut <==> files != [] && files[|files| - 1].error == Some(Timeout))
  }

  lemma StaysOnTime(files: seq<Captured>, c: Captured)
    requires OnTime(files, false)
    ensures OnTime(files + [c], c.error == Some(Timeout))
  {
  }

  lemma Reached(files: seq<Captured>, sources: seq<seq<byte>>, timedOut: bool)
    requires |files| <= |sources| && (|files| < |sources| ==> timedOut)
    requires OnTime(files, timedOut)
    ensures Reaches(files, sources)
  {
  }

  lemma NoneJudged(envs: seq<Env>, sources: seq<seq<byte>>, maxBytes: nat)
    requires |envs| == |sources|
    ensures Judged([], envs, sources, maxBytes) && AllFaithful([], sources) && OnTime([], false)
  {
  }

  lemma FaithfulGrows(files: seq<Captured>, c: Captured, sources: seq<seq<byte>>)
    requires AllFaithful(files, sources) && |files| < |sources| && Faithful(c, sources[|files|])
    ensures AllFaithful(files + [c], sources)
  {
    hide Faithful;
  }

  lemma OneFileMore(files: seq<Captured>, c: Captured, envs: seq<Env>, sources: seq<seq<byte>>, maxBytes: nat)
    requires |files| < |sources| == |envs| && Judged(files, envs, sources, maxBytes) && Sum(files) <= maxBytes
    requires AllFaithful(files, sources) && Faithful(c, sources[|files|])
    requires c.error == ErrorOf(envs[|files|], |sources[|files|]|, maxBytes - Sum(files))
    requires c.capturedBytes == BytesOf(envs[|files|], |sources[|files|]|, maxBytes - Sum(files))
    ensures Judged(files + [c], envs, sources, maxBytes) && AllFaithful(files + [c], sources)
    ensures Sum(files + [c]) == Sum(files) + c.capturedBytes
    ensures ErrorsIn(files + [c]) == ErrorsIn(files) + if c.error.Some? then [c.error.value] else []
  {
    hide Faithful, AllFaithful, Judged, Sum, ErrorOf, BytesOf, ErrorsIn;
    SumGrows(files, c);
    JudgedGrows(files, c, envs, sources, maxBytes);
    FaithfulGrows(files, c, sources);
  }

  lemma NoErrorNoLoss(files: seq<Captured>, sources: seq<seq<byte>>)
    requires AllFaithful(files, sources)
    ensures forall k :: 0 <= k < |files| && files[k].error == None ==>
              files[k].capturedBytes == files[k].size && Whole(files[k], sources[k])
  {
    forall k | 0 <= k < |files| && files[k].error == None
      ensures files[k].capturedBytes == files[k].size && Whole(files[k], sources[k])
    {
      assert Faithful(files[k], sources[k]);
    }
  }

  ghost predicate Whole(c: Captured, source: seq<byte>) {
    c.capturedBytes == |source| <= |c.artifact| && c.artifact[..|source|] == source && c.digest == Some(source)
  }

  function Listed(listing: Option<seq<seq<byte>>>): seq<seq<byte>> { if listing.Some? then listing.value else [] }

  function Sum(files: seq<Captured>): nat {
    if files == [] then 0 else Sum(files[..|files| - 1]) + files[|files| - 1].capturedBytes
  }

  function Bytes(sources: seq<seq<byte>>): nat {
    if sources == [] then 0 else Bytes(sources[..|sources| - 1]) + |sources[|sources| - 1]|
  }

  lemma SumGrows(files: seq<Captured>, c: Captured)
    ensures Sum(files + [c]) == Sum(files) + c.capturedBytes
  {
    assert (files + [c])[..|files|] == files;
  }

  lemma {:induction false} BytesGrow(sources: seq<seq<byte>>, i: nat)
    requires i < |sources|
    ensures Bytes(sources[..i + 1]) == Bytes(sources[..i]) + |sources[i]| <= Bytes(sources)
    decreases |sources|
  {
    assert sources[..i + 1][..i] == sources[..i];
    if i + 1 < |sources| {
      BytesGrow(sources[..|sources| - 1], i);
      assert sources[..|sources| - 1][..i + 1] == sources[..i + 1] && sources[..|sources| - 1][..i] == sources[..i];
    } else {
      assert sources[..i + 1] == sources;
    }
  }
}
