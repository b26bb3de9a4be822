/** The aggregation harness's hash mixer and its batches (packages/core/browser/next-agg-shapes.ts). A 32-bit
    word is its unsigned value; `^` is spelled out bit by bit, `Math.imul` and `+` modulo 2 to the 32. */
module HashMix {
  import opened Wrappers

  const WORDS: nat := 0x1_0000_0000

  type Word = x: nat | x < 0x1_0000_0000

  // ── Bits ─────────────────────────────────────────────────────────────────────────────────────

  function Xor(a: nat, b: nat): nat
    decreases a + b
  {
    if a == 0 then b else if b == 0 then a else 2 * Xor(a / 2, b / 2) + (a + b) % 2
  }

  lemma {:induction false} XorBits(a: nat, b: nat)
    ensures Xor(a, b) / 2 == Xor(a / 2, b / 2) && Xor(a, b) % 2 == (a + b) % 2
  {
  }

  lemma {:induction false} XorTwice(a: nat, b: nat)
    ensures Xor(Xor(a, b), b) == a
    decreases a + b
  {
    if a != 0 || b != 0 {
      XorTwice(a / 2, b / 2);
      XorBits(a, b);
      XorBits(Xor(a, b), b);
    }
  }

  lemma {:induction false} XorSwaps(a: nat, b: nat)
    ensures Xor(a, b) == Xor(b, a)
    decreases a + b
  {
    if a != 0 && b != 0 { XorSwaps(a / 2, b / 2); }
  }

  lemma {:induction false} XorFits(a: nat, b: nat, bits: nat)
    requires a < Pow2(bits) && b < Pow2(bits)
    ensures Xor(a, b) < Pow2(bits)
    decreases bits
  {
    if bits > 0 && a != 0 && b != 0 { XorFits(a / 2, b / 2, bits - 1); }
  }

  /** `>>>`. */
  function Shift(x: nat, bits: nat): nat { if bits == 0 then x else Shift(x / 2, bits - 1) }

  lemma {:induction false} XorShifts(a: nat, b: nat, bits: nat)
    ensures Shift(Xor(a, b), bits) == Xor(Shift(a, bits), Shift(b, bits))
    decreases bits
  {
    if bits > 0 {
      XorBits(a, b);
      XorShifts(a / 2, b / 2, bits - 1);
    }
  }

  lemma {:induction false} ShiftShift(x: nat, i: nat, j: nat)
    ensures Shift(Shift(x, i), j) == Shift(x, i + j)
    decreases i
  {
    if i > 0 { ShiftShift(x / 2, i - 1, j); }
  }

  lemma {:induction false} ShiftOut(x: nat, bits: nat)
    requires x < Pow2(bits)
    ensures Shift(x, bits) == 0
    decreases bits
  {
    if bits > 0 { ShiftOut(x / 2, bits - 1); }
  }

  lemma {:induction false} ShiftSmaller(x: nat, bits: nat)
    ensures Shift(x, bits) <= x
    decreases bits
  {
    if bits > 0 { ShiftSmaller(x / 2, bits - 1); }
  }

  lemma TwoTo32() ensures Pow2(32) == WORDS {
    assert Pow2(8) == 0x100;
    assert Pow2(16) == 0x1_0000;
    assert Pow2(24) == 0x100_0000;
  }

  // ── Steps, each with its inverse ─────────────────────────────────────────────────────────────

  function XorWord(a: Word, b: Word): Word {
    TwoTo32();
    XorFits(a, b, 32);
    Xor(a, b)
  }

  function ShiftWord(x: Word, bits: nat): Word {
    ShiftSmaller(x, bits);
    Shift(x, bits)
  }

  /** `h ^= h >>> bits`. */
  function Fold(x: Word, bits: nat): Word { XorWord(x, ShiftWord(x, bits)) }

  /** `Math.imul`, read back as an unsigned word. */
  function Imul(x: Word, c: Word): Word { x * c % WORDS }

  function Plus(x: Word, c: Word): Word { (x + c) % WORDS }

  function Minus(x: Word, c: Word): Word { (x + WORDS - c) % WORDS }

  lemma {:induction false} XorGathers(a: nat, b: nat, c: nat)
    ensures Xor(Xor(a, b), c) == Xor(a, Xor(b, c))
    decreases a + b + c
  {
    if a != 0 && b != 0 && c != 0 {
      XorGathers(a / 2, b / 2, c / 2);
      XorBits(a, b);
      XorBits(b, c);
      XorBits(Xor(a, b), c);
      XorBits(a, Xor(b, c));
      hide Xor;
      Parities(a, b, c, Xor(a, b), Xor(b, c));
    }
  }

  lemma Parities(a: nat, b: nat, c: nat, ab: nat, bc: nat)
    requires ab % 2 == (a + b) % 2 && bc % 2 == (b + c) % 2
    ensures (ab + c) % 2 == (a + bc) % 2
  {
  }

  /** Folding at half the width or more undoes itself. */
  lemma FoldTwice(x: Word, bits: nat)
    requires 16 <= bits
    ensures Fold(Fold(x, bits), bits) == x
  {
    Gone(x, 2 * bits);
    ShiftShift(x, bits, bits);
    XorShifts(x, Shift(x, bits), bits);
    XorTwice(x, Shift(x, bits));
  }

  lemma Gone(x: Word, bits: nat)
    requires 32 <= bits
    ensures Shift(x, bits) == 0
  {
    TwoTo32();
    ShiftOut(x, 32);
    ShiftShift(x, 32, bits - 32);
    ShiftSmaller(0, bits - 32);
  }

  /** A fold by 15 is undone by a fold by 15 and one by 30, in either order. */
  lemma Fold15Undone(x: Word)
    ensures Fold(Fold(Fold(x, 15), 15), 30) == x
    ensures Fold(Fold(Fold(x, 30), 15), 15) == x
  {
    FoldFold15(x);
    FoldTwice(x, 30);
    FoldFold15(Fold(x, 30));
  }

  lemma FoldFold15(x: Word)
    ensures Fold(Fold(x, 15), 15) == Fold(x, 30)
  {
    var s := Shift(x, 15);
    ShiftShift(x, 15, 15);
    XorShifts(x, s, 15);
    assert Fold(Fold(x, 15), 15) == Xor(Xor(x, s), Xor(s, Shift(s, 15)));
    XorGathers(Xor(x, s), s, Shift(s, 15));
    XorTwice(x, s);
  }

  lemma ImulUndone(x: Word, c: Word, d: Word)
    requires c * d % WORDS == 1
    ensures Imul(Imul(x, c), d) == x
  {
    var q, k := x * c / WORDS, c * d / WORDS;
    assert x * c == q * WORDS + Imul(x, c);
    assert c * d == k * WORDS + 1;
    assert Imul(x, c) * d == (x * c) * d - (q * WORDS) * d;
    assert x * (c * d) == x * (k * WORDS) + x;
    Remainder(Imul(x, c) * d, x * k - q * d, x);
  }

  lemma Remainder(n: int, q: int, r: Word)
    requires n == q * WORDS + r
    ensures n % WORDS == r
  {
  }

  // ── The mixer ────────────────────────────────────────────────────────────────────────────────

  function Seed(row: Word): Word { Imul(XorWord(row, 0x5bd1e995), 0x9e3779b1) }

  function Salt(salt: Word): Word { Imul(Plus(salt, 0x7f4a7c15), 0x85ebca77) }

  function UnSeed(h: Word): Word { XorWord(Imul(h, 0x0e8b2f51), 0x5bd1e995) }

  function UnSalt(h: Word): Word { Minus(Imul(h, 0xb6c92f47), 0x7f4a7c15) }

  function Finish(h: Word): Word { Fold(Imul(Fold(Imul(Fold(h, 16), 0x7feb352d), 15), 0x846ca68b), 16) }

  function UnFinish(h: Word): Word {
    Fold(Imul(Fold(Fold(Imul(Fold(h, 16), 0x43021123), 15), 30), 0x1d69e2a5), 16)
  }

  function MixOf(row: Word, salt: Word): Word { Finish(XorWord(Seed(row), Salt(salt))) }

  /** The row that a mixed word came from, given the salt; and the salt, given the row. */
  function RowOf(h: Word, salt: Word): Word { UnSeed(XorWord(UnFinish(h), Salt(salt))) }

  function SaltOf(h: Word, row: Word): Word { UnSalt(XorWord(UnFinish(h), Seed(row))) }

  method Mix(row: Word, salt: Word) returns (mixed: Word)
    ensures mixed == MixOf(row, salt)
  {
    var h := XorWord(Imul(XorWord(row, 0x5bd1e995), 0x9e3779b1), Imul(Plus(salt, 0x7f4a7c15), 0x85ebca77));
    h := XorWord(h, ShiftWord(h, 16));
    h := Imul(h, 0x7feb352d);
    h := XorWord(h, ShiftWord(h, 15));
    h := Imul(h, 0x846ca68b);
    h := XorWord(h, ShiftWord(h, 16));
    return h;
  }

  lemma FinishUndone(h: Word)
    ensures UnFinish(Finish(h)) == h && Finish(UnFinish(h)) == h
  {
    hide Fold, Imul, XorWord, ShiftWord, Xor, Shift;
    var a := Fold(h, 16);
    var b := Imul(a, 0x7feb352d);
    var c := Fold(b, 15);
    var d := Imul(c, 0x846ca68b);
    FoldTwice(d, 16);
    ImulUndone(c, 0x846ca68b, 0x43021123);
    Fold15Undone(b);
    ImulUndone(a, 0x7feb352d, 0x1d69e2a5);
    FoldTwice(h, 16);
    var e := Imul(a, 0x43021123);
    var f := Fold(Fold(e, 15), 30);
    var g := Imul(f, 0x1d69e2a5);
    FoldTwice(g, 16);
    ImulUndone(f, 0x1d69e2a5, 0x7feb352d);
    FoldsSwap(e);
    Fold15Undone(e);
    ImulUndone(a, 0x43021123, 0x846ca68b);
  }

  lemma FoldsSwap(x: Word)
    ensures Fold(Fold(x, 15), 30) == Fold(Fold(x, 30), 15)
  {
    FoldFold15(Fold(x, 15));
    FoldFold15(x);
  }

  lemma SeedUndone(x: Word)
    ensures UnSeed(Seed(x)) == x && Seed(UnSeed(x)) == x
  {
    XorTwice(x, 0x5bd1e995);
    ImulUndone(XorWord(x, 0x5bd1e995), 0x9e3779b1, 0x0e8b2f51);
    ImulUndone(x, 0x0e8b2f51, 0x9e3779b1);
    XorTwice(Imul(x, 0x0e8b2f51), 0x5bd1e995);
  }

  lemma SaltUndone(x: Word)
    ensures UnSalt(Salt(x)) == x && Salt(UnSalt(x)) == x
  {
    hide Imul, Plus, Minus;
    PlusUndone(x, 0x7f4a7c15);
    ImulInverse(Plus(x, 0x7f4a7c15));
    PlusUndone(Imul(x, 0xb6c92f47), 0x7f4a7c15);
    ImulInverse(x);
  }

  lemma PlusUndone(x: Word, c: Word)
    ensures Minus(Plus(x, c), c) == x && Plus(Minus(x, c), c) == x
  {
  }

  lemma ImulInverse(x: Word)
    ensures Imul(Imul(x, 0x85ebca77), 0xb6c92f47) == x && Imul(Imul(x, 0xb6c92f47), 0x85ebca77) == x
  {
    ImulUndone(x, 0x85ebca77, 0xb6c92f47);
    ImulUndone(x, 0xb6c92f47, 0x85ebca77);
  }

  /** Under one salt the mixer permutes the rows: each word is the mix of exactly one row. */
  lemma RowsArePermuted(h: Word, row: Word, salt: Word)
    ensures MixOf(row, salt) == h <==> row == RowOf(h, salt)
  {
    var s := Salt(salt);
    if MixOf(row, salt) == h {
      FinishUndone(XorWord(Seed(row), s));
      XorTwice(Seed(row), s);
      SeedUndone(row);
    }
    if row == RowOf(h, salt) {
      var w := XorWord(UnFinish(h), s);
      SeedUndone(w);
      XorTwice(UnFinish(h), s);
      FinishUndone(h);
    }
  }

  /** On one row the mixer permutes the salts. */
  lemma SaltsArePermuted(h: Word, row: Word, salt: Word)
    ensures MixOf(row, salt) == h <==> salt == SaltOf(h, row)
  {
    var s := Seed(row);
    if MixOf(row, salt) == h {
      FinishUndone(XorWord(s, Salt(salt)));
      XorSwaps(s, Salt(salt));
      XorTwice(Salt(salt), s);
      SaltUndone(salt);
    }
    if salt == SaltOf(h, row) {
      var w := XorWord(UnFinish(h), s);
      SaltUndone(w);
      XorSwaps(s, w);
      XorTwice(UnFinish(h), s);
      FinishUndone(h);
    }
  }

  // ── The batches ──────────────────────────────────────────────────────────────────────────────

  const BATCH: nat := 2048

  datatype Slice = Slice(start: nat, length: nat)

  ghost predicate Takes(s: Slice, row: nat) { s.start <= row < s.start + s.length }

  /** Consecutive full batches from row 0 to `rows`, the last one possibly short, none empty. */
  ghost predicate Tiles(out: seq<Slice>, rows: nat) {
    (forall i :: 0 <= i < |out| ==> out[i].start == BATCH * i && 0 < out[i].length <= BATCH)
    && (forall i :: 0 <= i < |out| - 1 ==> out[i].length == BATCH)
    && (if out == [] then rows == 0 else out[|out| - 1].start + out[|out| - 1].length == rows)
  }

  datatype Batch<C> = Batch(length: nat, columns: C)

  /** Each batch carries the columns of its own slice of the rows. */
  method BatchesOf<C>(rows: nat, columns: (nat, nat) -> C) returns (out: seq<Batch<C>>, ghost slices: seq<Slice>)
    ensures Tiles(slices, rows) && |out| == |slices|
    ensures forall i :: 0 <= i < |out| - 1 ==> out[i].length == 2048
    ensures out != [] ==> 1 <= out[|out| - 1].length == rows - 2048 * (|out| - 1) <= 2048
    ensures forall i :: 0 <= i < |out| ==> slices[i].start == 2048 * i
    ensures forall i :: 0 <= i < |out| ==>
              out[i] == Batch(slices[i].length, columns(slices[i].start, slices[i].length))
  {
    out, slices := [], [];
    var start := 0;
    while start < rows
      invariant start == BATCH * |out| && |out| == |slices|
      invariant start < rows + BATCH
      invariant Tiles(slices, if start < rows then start else rows)
      invariant forall i :: 0 <= i < |out| ==>
                  out[i] == Batch(slices[i].length, columns(slices[i].start, slices[i].length))
    {
      var n := Least(BATCH, rows - start);
      out := out + [Batch(n, columns(start, n))];
      slices := slices + [Slice(start, n)];
      start := start + BATCH;
    }
  }

  /** Batches that tile the rows take each row once and nothing else. */
  lemma TakenOnce(out: seq<Slice>, rows: nat, row: nat, i: nat)
    requires Tiles(out, rows) && i < |out|
    ensures row < rows ==> row / BATCH < |out|
    ensures Takes(out[i], row) <==> row < rows && i == row / BATCH
  {
    var last := |out| - 1;
    assert rows <= BATCH * |out| && rows > BATCH * last;
    if Takes(out[i], row) {
      assert i < last ==> BATCH * (i + 1) <= BATCH * last;
    }
  }

  /** So the batches are determined by the number of rows. */
  lemma OneTiling(a: seq<Slice>, b: seq<Slice>, rows: nat)
    requires Tiles(a, rows) && Tiles(b, rows)
    ensures a == b
  {
    if |a| > 0 { TakenOnce(a, rows, rows - 1, 0); }
    if |b| > 0 { TakenOnce(b, rows, rows - 1, 0); }
    assert |a| == |b|;
  }
}
