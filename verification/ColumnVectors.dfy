/** Column vectors as the owner loader builds them (inputVector in packages/core/browser/next-storage-owner-load.ts):
    validity bits in 32-bit words, and texts as one run of bytes cut by offsets. Numbers are reals, a date its
    milliseconds, a text its encoded bytes. */
module ColumnVectors {
  import opened Wrappers
  import Calendar

  datatype Kind = Float64 | Bool | Timestamp | Text | Other

  datatype Value = Null | Number(number: real) | Flag(flag: bool) | Moment(ms: int) | Chars(bytes: seq<byte>)

  datatype Data =
    | Reals(reals: seq<real>)
    | Flags(flags: seq<nat>)
    | Micros(micros: seq<real>)
    | VarLen(bytes: seq<byte>, offsets: seq<int>)

  datatype Vector = Vector(kind: Kind, length: nat, validity: Option<seq<nat>>, data: Data)

  /** What `Number` makes of a value, and the encoded bytes of what `String` makes of it. */
  datatype Coercions = Coercions(number: Value -> real, text: Value -> seq<byte>)

  /** They leave numbers, times and texts as they are; what they make of others is up to them. */
  ghost predicate Plain(js: Coercions) {
    (forall x :: js.number(Number(x)) == x) && (forall ms :: js.number(Moment(ms)) == ms as real)
    && forall bytes :: js.text(Chars(bytes)) == bytes
  }

  predicate Typed(kind: Kind, v: Value) {
    match kind
    case Float64 => v.Null? || v.Number?
    case Bool => v.Null? || v.Flag?
    case Timestamp => v.Null? || v.Moment?
    case Text => v.Null? || v.Chars?
    case Other => true
  }

  // ── Bits of a word ───────────────────────────────────────────────────────────────────────────

  predicate Bit(w: nat, j: nat) { if j == 0 then w % 2 == 1 else Bit(w / 2, j - 1) }

  /** `w | (1 << j)`. */
  function WithBit(w: nat, j: nat): nat {
    if j == 0 then w + 1 - w % 2 else 2 * WithBit(w / 2, j - 1) + w % 2
  }

  lemma {:induction false} WithBitBits(w: nat, j: nat, i: nat)
    ensures Bit(WithBit(w, j), i) <==> i == j || Bit(w, i)
  {
    if j > 0 && i > 0 { WithBitBits(w / 2, j - 1, i - 1); }
    if j == 0 && i > 0 { assert WithBit(w, j) / 2 == w / 2; }
  }

  lemma {:induction false} WithBitFits(w: nat, j: nat, n: nat)
    requires w < Pow2(n) && j < n
    ensures WithBit(w, j) < Pow2(n)
  {
    assert Pow2(n) == 2 * Pow2(n - 1);
    hide Pow2;
    if j > 0 {
      Halves(w, WithBit(w / 2, j - 1), Pow2(n - 1));
      WithBitFits(w / 2, j - 1, n - 1);
    } else {
      Halves(w, 0, Pow2(n - 1));
    }
  }

  lemma Halves(w: nat, x: nat, p: nat)
    requires w < 2 * p
    ensures w / 2 < p && w + 1 - w % 2 < 2 * p && (x < p ==> 2 * x + w % 2 < 2 * p)
  {
  }

  lemma {:induction false} ZeroBits(i: nat)
    ensures !Bit(0, i)
  {
    if i > 0 { ZeroBits(i - 1); }
  }

  /** Words of 32 bits, one bit a value, set where the value is not null; the bits past the values are clear. */
  ghost predicate Marks(words: seq<nat>, values: seq<Value>, n: nat) {
    |words| == (|values| + 31) / 32
    && (forall i :: 0 <= i < |words| ==> words[i] < Pow2(32))
    && forall k: nat :: k < 32 * |words| ==> (IsSet(words, k) <==> k < n <= |values| && values[k] != Null)
  }

  predicate IsSet(words: seq<nat>, k: nat)
    requires k < 32 * |words|
  {
    Bit(words[k / 32], k % 32)
  }

  method ValidityOf(values: seq<Value>) returns (validity: Option<seq<nat>>)
    ensures validity.None? <==> Null !in values
    ensures validity.Some? ==> Marks(validity.value, values, |values|)
  {
    if Null !in values { return None; }
    var words := new nat[(|values| + 31) / 32](_ => 0);
    forall k: nat | k < 32 * words.Length ensures !IsSet(words[..], k) { ZeroBits(k % 32); }
    var k := 0;
    while k < |values|
      invariant k <= |values| && Marks(words[..], values, k)
    {
      if values[k] != Null {
        SetMark(words[..], values, k);
        words[k / 32] := WithBit(words[k / 32], k % 32);
      } else {
        SkipMark(words[..], values, k);
      }
      k := k + 1;
    }
    return Some(words[..]);
  }

  lemma SkipMark(words: seq<nat>, values: seq<Value>, k: nat)
    requires k < |values| && Marks(words, values, k) && values[k] == Null
    ensures Marks(words, values, k + 1)
  {
  }

  lemma SetMark(words: seq<nat>, values: seq<Value>, k: nat)
    requires k < |values| && Marks(words, values, k) && values[k] != Null
    ensures Marks(words[k / 32 := WithBit(words[k / 32], k % 32)], values, k + 1)
  {
    var after := words[k / 32 := WithBit(words[k / 32], k % 32)];
    WithBitFits(words[k / 32], k % 32, 32);
    forall i: nat | i < 32 * |after| ensures IsSet(after, i) <==> i < k + 1 && values[i] != Null {
      WithBitBits(words[k / 32], k % 32, i % 32);
      assert IsSet(words, i) <==> i < k && values[i] != Null;
    }
  }

  // ── Texts ────────────────────────────────────────────────────────────────────────────────────

  const INT32_MAX: nat := 0x7fff_ffff

  /** What an Int32Array element keeps of a number: itself exactly when it fits. */
  function Int32(n: nat): (r: int)
    ensures r <= INT32_MAX && (r == n <==> n <= INT32_MAX)
  {
    (n + 0x8000_0000) % 0x1_0000_0000 - 0x8000_0000
  }

  function Joined(parts: seq<seq<byte>>): seq<byte> {
    if parts == [] then [] else Joined(parts[..|parts| - 1]) + parts[|parts| - 1]
  }

  lemma {:induction false} JoinedPrefix(parts: seq<seq<byte>>, k: nat)
    requires k <= |parts|
    ensures Joined(parts[..k]) <= Joined(parts)
    decreases |parts|
  {
    if k < |parts| {
      JoinedPrefix(parts[..|parts| - 1], k);
      assert parts[..|parts| - 1][..k] == parts[..k];
    } else {
      assert parts[..k] == parts;
    }
  }

  function PartOf(js: Coercions, v: Value): seq<byte> { if v.Null? then [] else js.text(v) }

  function Parts(js: Coercions, values: seq<Value>): seq<seq<byte>> {
    seq(|values|, i requires 0 <= i < |values| => PartOf(js, values[i]))
  }

  /** The offsets start at 0, never decrease, end at the last byte, and cut out each part. */
  ghost predicate Cuts(bytes: seq<byte>, offsets: seq<int>, parts: seq<seq<byte>>) {
    |offsets| == |parts| + 1 && offsets[0] == 0 && offsets[|parts|] == |bytes|
    && forall k :: 0 <= k < |parts| ==> CutAt(bytes, offsets, parts, k)
  }

  ghost predicate CutAt(bytes: seq<byte>, offsets: seq<int>, parts: seq<seq<byte>>, k: nat)
    requires k < |parts| < |offsets|
  {
    SpanAt(bytes, offsets, k) && bytes[offsets[k]..offsets[k + 1]] == parts[k]
  }

  ghost predicate SpanAt(bytes: seq<byte>, offsets: seq<int>, k: nat)
    requires k + 1 < |offsets|
  {
    0 <= offsets[k] <= offsets[k + 1] <= |bytes|
  }

  method OffsetsOf(parts: seq<seq<byte>>) returns (offsets: array<int>, size: nat)
    ensures offsets.Length == |parts| + 1 && size == |Joined(parts)| && fresh(offsets)
    ensures forall k :: 0 <= k <= |parts| ==> offsets[k] == Int32(|Joined(parts[..k])|)
  {
    offsets := new int[|parts| + 1](_ => 0);
    size := 0;
    assert parts[..0] == [];
    var k := 0;
    while k < |parts|
      invariant k <= |parts| && size == |Joined(parts[..k])|
      invariant forall j :: 0 <= j <= k ==> offsets[j] == Int32(|Joined(parts[..j])|)
    {
      JoinedPrefix(parts, k + 1);
      assert parts[..k + 1][..k] == parts[..k];
      size := size + |parts[k]|;
      offsets[k + 1] := Int32(size);
      k := k + 1;
    }
    assert parts[..|parts|] == parts;
  }

  method SetBytes(buffer: array<byte>, at: nat, part: seq<byte>)
    requires at + |part| <= buffer.Length
    modifies buffer
    ensures buffer[..at + |part|] == old(buffer[..at]) + part
  {
    forall i | 0 <= i < |part| { buffer[at + i] := part[i]; }
    assert buffer[..at] == old(buffer[..at]) && buffer[at..at + |part|] == part;
    assert buffer[..at] + buffer[at..at + |part|] == buffer[..at + |part|];
  }

  /** Each part is set at its offset; one that would not lie within the buffer is a RangeError. */
  method BytesOf(parts: seq<seq<byte>>, offsets: array<int>, size: nat) returns (bytes: Option<seq<byte>>)
    requires offsets.Length == |parts| + 1 && size == |Joined(parts)|
    requires forall k :: 0 <= k <= |parts| ==> offsets[k] == Int32(|Joined(parts[..k])|)
    ensures bytes.Some? ==> |bytes.value| == size
    ensures size <= INT32_MAX ==> bytes == Some(Joined(parts))
  {
    hide Int32;
    var buffer := new byte[size](_ => 0);
    var k := 0;
    while k < |parts|
      invariant k <= |parts| && |Joined(parts[..k])| <= size
      invariant size <= INT32_MAX ==> buffer[..|Joined(parts[..k])|] == Joined(parts[..k])
    {
      JoinedPrefix(parts, k + 1);
      assert parts[..k + 1][..k] == parts[..k];
      var at := offsets[k];
      if at < 0 || at + |parts[k]| > size { return None; }
      SetBytes(buffer, at, parts[k]);
      k := k + 1;
    }
    assert parts[..|parts|] == parts && buffer[..] == buffer[..size];
    bytes := Some(buffer[..]);
  }

  lemma JoinedCuts(parts: seq<seq<byte>>, offsets: seq<int>)
    requires |offsets| == |parts| + 1 && forall k :: 0 <= k <= |parts| ==> offsets[k] == |Joined(parts[..k])|
    ensures Cuts(Joined(parts), offsets, parts)
  {
    assert parts[..|parts|] == parts;
    forall k | 0 <= k < |parts| ensures CutAt(Joined(parts), offsets, parts, k) {
      JoinedPrefix(parts, k + 1);
      assert parts[..k + 1][..k] == parts[..k];
    }
  }

  // ── Vectors ──────────────────────────────────────────────────────────────────────────────────

  const EPOCH_2000_MS: int := 946_684_800_000

  ghost predicate Holds(data: Data, js: Coercions, kind: Kind, values: seq<Value>) {
    match kind
    case Float64 => data.Reals? && data.reals == RealsOf(js, values)
    case Bool => data.Flags? && data.flags == FlagsOf(values)
    case Timestamp => data.Micros? && data.micros == MicrosOf(js, values)
    case Text => data.VarLen? && Cuts(data.bytes, data.offsets, Parts(js, values))
    case Other => false
  }

  function RealsOf(js: Coercions, values: seq<Value>): seq<real> {
    seq(|values|, i requires 0 <= i < |values| => if values[i].Null? then 0.0 else js.number(values[i]))
  }

  function FlagsOf(values: seq<Value>): seq<nat> {
    seq(|values|, i requires 0 <= i < |values| => if values[i] == Flag(true) then 1 else 0)
  }

  function MicrosOf(js: Coercions, values: seq<Value>): seq<real> {
    seq(|values|, i requires 0 <= i < |values| =>
      if values[i].Null? then 0.0 else (js.number(values[i]) - EPOCH_2000_MS as real) * 1000.0)
  }

  ghost predicate Built(v: Vector, js: Coercions, kind: Kind, values: seq<Value>) {
    v.kind == kind && v.length == |values| && Holds(v.data, js, kind, values)
    && (v.validity.None? <==> Null !in values)
    && (v.validity.Some? ==> Marks(v.validity.value, values, |values|))
  }

  datatype Outcome = Made(vector: Vector) | UnexpectedType | OutOfRange

  /** Whether the offsets of a text column fit their 32-bit integers. */
  ghost predicate OffsetsFit(js: Coercions, kind: Kind, values: seq<Value>) {
    kind == Text ==> |Joined(Parts(js, values))| <= INT32_MAX
  }

  /** Any values, of the column's type or coerced to it. A vector that does not hold them is made exactly when the
      text is too long for its offsets and no part of it was out of range. */
  method InputVector(js: Coercions, kind: Kind, values: seq<Value>) returns (r: Outcome)
    ensures r.UnexpectedType? <==> kind == Other
    ensures kind != Other && OffsetsFit(js, kind, values) ==> r.Made?
    ensures r.Made? ==> (Built(r.vector, js, kind, values) <==> OffsetsFit(js, kind, values))
  {
    var validity := ValidityOf(values);
    var data;
    match kind {
      case Float64 => data := Reals(RealsOf(js, values));
      case Bool => data := Flags(FlagsOf(values));
      case Timestamp => data := Micros(MicrosOf(js, values));
      case Text =>
        var parts := Parts(js, values);
        var offsets, size := OffsetsOf(parts);
        var bytes := BytesOf(parts, offsets, size);
        if bytes == None { return OutOfRange; }
        assert parts[..|parts|] == parts;
        if size <= INT32_MAX { FittingCuts(parts, offsets[..]); }
        data := VarLen(bytes.value, offsets[..]);
      case Other => return UnexpectedType;
    }
    return Made(Vector(kind, |values|, validity, data));
  }

  lemma FittingCuts(parts: seq<seq<byte>>, offsets: seq<int>)
    requires |offsets| == |parts| + 1 && |Joined(parts)| <= INT32_MAX
    requires forall k :: 0 <= k <= |parts| ==> offsets[k] == Int32(|Joined(parts[..k])|)
    ensures Cuts(Joined(parts), offsets, parts)
  {
    forall k | 0 <= k <= |parts| ensures offsets[k] == |Joined(parts[..k])| { JoinedPrefix(parts, k); }
    JoinedCuts(parts, offsets);
  }

  // ── Reading a vector back ────────────────────────────────────────────────────────────────────

  ghost predicate Readable(v: Vector) {
    (v.validity.Some? ==> 32 * |v.validity.value| >= v.length)
    && match v.data
       case Reals(reals) => |reals| == v.length
       case Flags(flags) => |flags| == v.length
       case Micros(micros) => |micros| == v.length
       case VarLen(bytes, offsets) =>
         |offsets| == v.length + 1 && forall k :: 0 <= k < v.length ==> SpanAt(bytes, offsets, k)
  }

  ghost function ValueAt(v: Vector, k: nat): Value
    requires Readable(v) && k < v.length
  {
    if v.validity.Some? && !IsSet(v.validity.value, k) then Null
    else match v.data
         case Reals(reals) => Number(reals[k])
         case Flags(flags) => Flag(flags[k] == 1)
         case Micros(micros) => Moment((micros[k] / 1000.0).Floor + EPOCH_2000_MS)
         case VarLen(bytes, offsets) => assert SpanAt(bytes, offsets, k); Chars(bytes[offsets[k]..offsets[k + 1]])
  }

  /** Whatever was put in comes back: values, nulls and empty texts alike. */
  lemma ReadsBack(v: Vector, js: Coercions, kind: Kind, values: seq<Value>, k: nat)
    requires Built(v, js, kind, values) && Plain(js) && k < |values| && Typed(kind, values[k])
    ensures Readable(v) && ValueAt(v, k) == values[k]
  {
    ReadableBuilt(v, js, kind, values);
    if v.validity.Some? { assert IsSet(v.validity.value, k) <==> values[k] != Null; }
    if kind == Text { assert CutAt(v.data.bytes, v.data.offsets, Parts(js, values), k); }
  }

  lemma ReadableBuilt(v: Vector, js: Coercions, kind: Kind, values: seq<Value>)
    requires Built(v, js, kind, values)
    ensures Readable(v)
  {
    if kind == Text {
      forall k | 0 <= k < |values| ensures SpanAt(v.data.bytes, v.data.offsets, k) {
        assert CutAt(v.data.bytes, v.data.offsets, Parts(js, values), k);
      }
    }
  }

  /** Day 0 of the timestamps is 1 January 2000. */
  lemma EpochDay()
    ensures EPOCH_2000_MS == Calendar.DaysFromCivil(Calendar.Date(2000, 0, 1)) * 86_400_000
  {
  }

  /** How a vector lays out the values of its column: a number as it is, a boolean as 0 or 1, a date as the
      microseconds since 1 January 2000, a text as its bytes; 0 or nothing for a null, whose validity bit is clear. */
  lemma LaidOut(v: Vector, js: Coercions, kind: Kind, values: seq<Value>, k: nat)
    requires Built(v, js, kind, values) && Plain(js) && k < |values| && Typed(kind, values[k])
    ensures Readable(v)
    ensures (v.validity.Some? && !IsSet(v.validity.value, k)) <==> values[k].Null?
    ensures match v.data
      case Reals(reals) => reals[k] == if values[k].Number? then values[k].number else 0.0
      case Flags(flags) => flags[k] == if values[k] == Flag(true) then 1 else 0
      case Micros(micros) =>
        micros[k] == if values[k].Moment?
          then (values[k].ms - Calendar.DaysFromCivil(Calendar.Date(2000, 0, 1)) * 86_400_000) as real * 1000.0 else 0.0
      case VarLen(bytes, offsets) =>
        assert SpanAt(bytes, offsets, k);
        bytes[offsets[k]..offsets[k + 1]] == if values[k].Chars? then values[k].bytes else []
  {
    ReadableBuilt(v, js, kind, values);
    EpochDay();
    if kind == Text { assert CutAt(v.data.bytes, v.data.offsets, Parts(js, values), k); }
  }

  /** So two columns with one vector are one column. */
  lemma VectorsTellApart(v: Vector, js: Coercions, kind: Kind, a: seq<Value>, b: seq<Value>)
    requires Built(v, js, kind, a) && Built(v, js, kind, b) && Plain(js)
    requires forall k :: 0 <= k < |a| ==> Typed(kind, a[k])
    requires forall k :: 0 <= k < |b| ==> Typed(kind, b[k])
    ensures a == b
  {
    forall k | 0 <= k < |a| ensures a[k] == b[k] {
      ReadsBack(v, js, kind, a, k);
      ReadsBack(v, js, kind, b, k);
    }
  }
}
