/** The owner loader's resumable fact load (loadOwnerDataset in packages/core/browser/next-storage-owner-load.ts):
    one fact table filled batch by batch, then the dimensions, each write atomic, interrupted anywhere. */
module OwnerLoad {
  import opened Wrappers

  const BATCH_ROWS: nat := 50_000

  /** A generated row is known by its number; its key is that number plus one. */
  type Rows = seq<nat>

  datatype Tables = Tables(fact: Option<Rows>, dimensions: seq<Option<Rows>>)

  datatype Outcome = Completed | Interrupted | Refused

  function UpTo(n: nat): Rows { seq(n, i requires 0 <= i < n => i) }

  /** The row counts the resume guard lets through. */
  predicate Accepts(loaded: nat, rows: nat) { loaded <= rows && (loaded == rows || loaded % BATCH_ROWS == 0) }

  // ── An uninterrupted load, write by write ────────────────────────────────────────────────────

  function Batches(rows: nat): nat { (rows + BATCH_ROWS - 1) / BATCH_ROWS }

  /** Creating the fact table, its batches, and a creation and an insertion for each dimension. */
  function Writes(rows: nat, sizes: seq<nat>): nat { 1 + Batches(rows) + 2 * |sizes| }

  function FactAfter(rows: nat, n: nat): Option<Rows> {
    if n == 0 then None else Some(UpTo(Least((n - 1) * BATCH_ROWS, rows)))
  }

  function DimensionAfter(rows: nat, size: nat, d: nat, n: nat): Option<Rows> {
    var before := 1 + Batches(rows) + 2 * d;
    if n <= before then None else if n == before + 1 then Some([]) else Some(UpTo(size))
  }

  /** The store after the first `n` writes. */
  function After(rows: nat, sizes: seq<nat>, n: nat): Tables {
    Tables(FactAfter(rows, n), seq(|sizes|, d requires 0 <= d < |sizes| => DimensionAfter(rows, sizes[d], d, n)))
  }

  /** Interrupted between creating a dimension and filling it. */
  predicate Torn(rows: nat, sizes: seq<nat>, n: nat) {
    n > 1 + Batches(rows) && n <= Writes(rows, sizes) && (n - 1 - Batches(rows)) % 2 == 1
  }

  /** The guard accepts exactly the counts that whole batches leave. */
  lemma GuardExact(loaded: nat, rows: nat)
    ensures Accepts(loaded, rows) <==> exists n: nat :: Leaves(rows, n, loaded)
  {
    if Accepts(loaded, rows) {
      var n := if loaded == rows then 1 + Batches(rows) else 1 + loaded / BATCH_ROWS;
      assert Leaves(rows, n, loaded);
    }
  }

  /** A load stopped after `n` writes, none of them to a dimension, leaves `loaded` rows. */
  ghost predicate Leaves(rows: nat, n: nat, loaded: nat) {
    1 <= n <= 1 + Batches(rows) && loaded == Least((n - 1) * BATCH_ROWS, rows)
  }

  /** The stops a resumed load refuses are those that leave a dimension created and still empty. */
  lemma TornSeen(rows: nat, sizes: seq<nat>, n: nat)
    requires n <= Writes(rows, sizes) && forall d :: 0 <= d < |sizes| ==> sizes[d] > 0
    ensures Torn(rows, sizes, n) <==> Some([]) in After(rows, sizes, n).dimensions
  {
    var dimensions := After(rows, sizes, n).dimensions;
    if Torn(rows, sizes, n) {
      var d := (n - 2 - Batches(rows)) / 2;
      assert dimensions[d] == DimensionAfter(rows, sizes[d], d, n) == Some([]);
    }
    forall d | 0 <= d < |sizes| && dimensions[d] == Some([]) ensures Torn(rows, sizes, n) {
      assert |UpTo(sizes[d])| > 0;
      assert n == 1 + Batches(rows) + 2 * d + 1;
    }
  }

  // ── The loader ───────────────────────────────────────────────────────────────────────────────

  class Loader {
    const rows: nat
    const sizes: seq<nat>
    var tables: Tables
    var left: nat      // writes that still get through before the next interruption
    ghost var done: nat

    constructor (rows: nat, sizes: seq<nat>)
      requires forall d :: 0 <= d < |sizes| ==> sizes[d] > 0
      ensures this.rows == rows && this.sizes == sizes && Valid() && done == 0
    {
      this.rows, this.sizes := rows, sizes;
      tables := Tables(None, seq(|sizes|, _ => None));
      left, done := 0, 0;
    }

    ghost predicate Valid()
      reads this
    {
      (forall d :: 0 <= d < |sizes| ==> sizes[d] > 0)
      && done <= Writes(rows, sizes) && tables == After(rows, sizes, done)
    }

    /** One atomic write, unless the interruption comes first. */
    method Write(next: Tables) returns (through: bool)
      requires Valid() && done < Writes(rows, sizes) && next == After(rows, sizes, done + 1)
      modifies this
      ensures Valid() && through == (old(left) > 0)
      ensures if through then done == old(done) + 1 && left == old(left) - 1 else done == old(done) && left == 0
    {
      through := left > 0;
      if through {
        tables := next;
        left := left - 1;
        done := done + 1;
      }
    }

    method Load(resume: bool, budget: nat) returns (outcome: Outcome)
      requires Valid()
      modifies this
      ensures Valid()
      ensures outcome == Refused <==> old(done) > 0 && (!resume || Torn(rows, sizes, old(done)))
      ensures outcome == Refused ==> done == old(done)
      ensures outcome != Refused ==> done == Least(old(done) + budget, Writes(rows, sizes))
      ensures outcome != Refused ==> (outcome == Completed <==> old(done) + budget >= Writes(rows, sizes))
    {
      left := budget;
      var loaded := 0;
      if tables.fact == None {
        NextFact(rows, sizes, done);
        assert UpTo(0) == [];
        var ok := Write(tables.(fact := Some([])));
        if !ok { return Interrupted; }
      } else {
        if !resume { return Refused; }
        var fact := tables.fact.value;
        loaded := |fact|;
        PrefixAccepted(rows, sizes, done);
        if !Accepts(loaded, rows) { return Refused; }
        if loaded > 0 && (0 !in fact || loaded - 1 !in fact) { return Refused; }
      }
      outcome := LoadFact(loaded);
      if outcome == Completed { outcome := LoadDimensions(resume); }
    }

    /** The batch loop, from a whole number of batches on. */
    method LoadFact(loaded: nat) returns (outcome: Outcome)
      requires Valid() && done > 0 && tables.fact == Some(UpTo(loaded)) && Accepts(loaded, rows)
      modifies this
      ensures Valid() && outcome != Refused
      ensures outcome == Completed ==> done == (if old(done) <= 1 + Batches(rows) then 1 + Batches(rows) else old(done))
                                       && left == old(left) - (done - old(done))
      ensures outcome == Interrupted ==> left == 0 && done == old(done) + old(left) < 1 + Batches(rows)
    {
      var start := loaded;
      FactCount(rows, sizes, done, loaded);
      while start < rows
        invariant Valid() && old(done) <= done && left == old(left) - (done - old(done))
        invariant if start < rows then start == (done - 1) * BATCH_ROWS && 1 <= done <= Batches(rows)
                  else done == if old(done) <= 1 + Batches(rows) then 1 + Batches(rows) else old(done)
        decreases rows - start
      {
        var count := Least(BATCH_ROWS, rows - start);
        NextFact(rows, sizes, done);
        var batch := seq(count, i requires 0 <= i < count => start + i);
        assert UpTo(start) + batch == UpTo(start + count);
        var ok := Write(tables.(fact := Some(tables.fact.value + batch)));
        if !ok { return Interrupted; }
        start := start + BATCH_ROWS;
      }
      return Completed;
    }

    method LoadDimensions(resume: bool) returns (outcome: Outcome)
      requires Valid() && done >= 1 + Batches(rows) && (!resume ==> done == 1 + Batches(rows))
      modifies this
      ensures Valid()
      ensures outcome == Refused <==> Torn(rows, sizes, old(done))
      ensures outcome == Refused ==> done == old(done)
      ensures outcome == Completed ==> done == Writes(rows, sizes) <= old(done) + old(left)
      ensures outcome == Interrupted ==> done == old(done) + old(left) < Writes(rows, sizes)
    {
      for d := 0 to |sizes|
        invariant Valid() && old(done) <= done && left == old(left) - (done - old(done))
        invariant 1 + Batches(rows) + 2 * d <= done
        invariant done == old(done) || (done == 1 + Batches(rows) + 2 * d && !Torn(rows, sizes, old(done)))
      {
        var present := tables.dimensions[d];
        assert present == DimensionAfter(rows, sizes[d], d, done);
        if present != None {
          if !resume || |present.value| != sizes[d] { return Refused; }
          continue;
        }
        NextDimension(rows, sizes, d, done);
        var ok := Write(tables.(dimensions := tables.dimensions[d := Some([])]));
        if !ok { return Interrupted; }
        NextDimension(rows, sizes, d, done);
        ok := Write(tables.(dimensions := tables.dimensions[d := Some(UpTo(sizes[d]))]));
        if !ok { return Interrupted; }
      }
      return Completed;
    }
  }

  lemma NextFact(rows: nat, sizes: seq<nat>, n: nat)
    requires n <= Batches(rows)
    ensures var start := if n == 0 then 0 else (n - 1) * BATCH_ROWS;
            (n > 0 ==> start < rows)
            && var loaded := if n == 0 then 0 else start + Least(BATCH_ROWS, rows - start);
               After(rows, sizes, n + 1) == After(rows, sizes, n).(fact := Some(UpTo(loaded)))
  {
    var a, b := After(rows, sizes, n), After(rows, sizes, n + 1);
    assert a.dimensions == b.dimensions;
  }

  lemma NextDimension(rows: nat, sizes: seq<nat>, d: nat, n: nat)
    requires d < |sizes|
    requires var before := 1 + Batches(rows) + 2 * d; n == before || n == before + 1
    ensures var rows' := if n == 1 + Batches(rows) + 2 * d then [] else UpTo(sizes[d]);
            var before := After(rows, sizes, n);
            After(rows, sizes, n + 1) == before.(dimensions := before.dimensions[d := Some(rows')])
  {
    var a, b := After(rows, sizes, n), After(rows, sizes, n + 1);
    var rows' := if n == 1 + Batches(rows) + 2 * d then [] else UpTo(sizes[d]);
    assert b.dimensions == a.dimensions[d := Some(rows')];
  }

  lemma FactCount(rows: nat, sizes: seq<nat>, n: nat, loaded: nat)
    requires 0 < n && After(rows, sizes, n).fact == Some(UpTo(loaded))
    ensures loaded == Least((n - 1) * BATCH_ROWS, rows)
    ensures if loaded < rows then loaded == (n - 1) * BATCH_ROWS && n <= Batches(rows) else n >= 1 + Batches(rows)
  {
    assert |UpTo(loaded)| == |UpTo(Least((n - 1) * BATCH_ROWS, rows))|;
  }

  /** Whatever an interruption leaves of the fact table, the guard lets through. */
  lemma PrefixAccepted(rows: nat, sizes: seq<nat>, n: nat)
    requires n > 0
    ensures var fact := After(rows, sizes, n).fact.value;
            Accepts(|fact|, rows) && fact == UpTo(|fact|) && (|fact| > 0 ==> 0 in fact && |fact| - 1 in fact)
  {
    var fact := After(rows, sizes, n).fact.value;
    if |fact| > 0 { assert fact[0] == 0 && fact[|fact| - 1] == |fact| - 1; }
  }

  // ── Any number of interruptions ──────────────────────────────────────────────────────────────

  /** The writes that get through in the first `n` attempts, if none is refused. */
  function Through(budgets: seq<nat>, n: nat): nat
    requires n <= |budgets|
  {
    if n == 0 then 0 else Through(budgets, n - 1) + budgets[n - 1]
  }

  /** Some interruption but the last leaves a dimension created and not filled. */
  ghost predicate TornBetween(rows: nat, sizes: seq<nat>, budgets: seq<nat>, n: nat)
    requires n <= |budgets|
  {
    exists i :: 0 < i < n && Torn(rows, sizes, Through(budgets, i))
  }

  function Filled(sizes: seq<nat>): seq<Option<Rows>> {
    seq(|sizes|, d requires 0 <= d < |sizes| => Some(UpTo(sizes[d])))
  }

  /** Interrupted and resumed as often as one likes: refused exactly when an earlier stop tore a dimension, and
      otherwise complete exactly when the budgets reach, with every row once and in order. */
  method LoadThrough(loader: Loader, budgets: seq<nat>) returns (outcome: Outcome)
    requires loader.Valid() && loader.done == 0
    modifies loader
    ensures loader.Valid()
    ensures outcome == Refused <==> TornBetween(loader.rows, loader.sizes, budgets, |budgets|)
    ensures outcome == Completed <==> Through(budgets, |budgets|) >= Writes(loader.rows, loader.sizes)
                                      && !TornBetween(loader.rows, loader.sizes, budgets, |budgets|)
    ensures outcome != Refused ==> loader.done == Least(Through(budgets, |budgets|), Writes(loader.rows, loader.sizes))
    ensures outcome == Completed ==> loader.tables.fact == Some(UpTo(loader.rows))
    ensures outcome == Completed ==> loader.tables.dimensions == Filled(loader.sizes)
  {
    ghost var total := Writes(loader.rows, loader.sizes);
    outcome := Interrupted;
    var i := 0;
    while i < |budgets|
      invariant i <= |budgets| && loader.Valid() && outcome != Refused
      invariant loader.done == Least(Through(budgets, i), total)
      invariant outcome == Completed <==> Through(budgets, i) >= total
      invariant !TornBetween(loader.rows, loader.sizes, budgets, i)
    {
      ghost var before := loader.done;
      outcome := loader.Load(true, budgets[i]);
      i := i + 1;
      if outcome == Refused {
        assert before > 0 && Torn(loader.rows, loader.sizes, Through(budgets, i - 1)) && i > 1;
        return;
      }
    }
    if outcome == Completed { Whole(loader.rows, loader.sizes); }
  }

  lemma Whole(rows: nat, sizes: seq<nat>)
    ensures After(rows, sizes, Writes(rows, sizes)).fact == Some(UpTo(rows))
    ensures After(rows, sizes, Writes(rows, sizes)).dimensions == Filled(sizes)
  {
  }
}
