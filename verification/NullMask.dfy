/** Bit-packed masks that grow by appending (crates/array/src/builder/bitmask.rs, nullmask.rs). */
module NullMask {
  import opened Bits
  import opened Options

  /** A half-open range of bit positions. */
  datatype Span = Span(start: nat, len: nat)

  /** The first `len` bits are data and all others are zero. */
  ghost predicate Clean(buffer: seq<bv8>, len: nat) {
    len <= 8 * |buffer| && forall i :: len <= i < 8 * |buffer| ==> !BitAt(buffer, i)
  }

  /** `buffer` holds the bits `bits` and zeros behind them. */
  ghost predicate Carries(buffer: seq<bv8>, bits: seq<bool>) {
    Clean(buffer, |bits|) && BitsOf(buffer, 0, |bits|) == bits
  }

  function Repeat(val: bool, count: nat): (r: seq<bool>)
    ensures |r| == count && forall i :: 0 <= i < count ==> r[i] == val
  {
    seq(count, i requires 0 <= i < count => val)
  }

  function PickBits(data: seq<bv8>, indexes: seq<nat>): (r: seq<bool>)
    requires forall i :: 0 <= i < |indexes| ==> indexes[i] < 8 * |data|
    ensures |r| == |indexes| && forall i :: 0 <= i < |indexes| ==> r[i] == BitAt(data, indexes[i])
  {
    seq(|indexes|, i requires 0 <= i < |indexes| => BitAt(data, indexes[i]))
  }

  predicate Fits(data: seq<bv8>, spans: seq<Span>) {
    forall i :: 0 <= i < |spans| ==> spans[i].start + spans[i].len <= 8 * |data|
  }

  function SpanBits(data: seq<bv8>, spans: seq<Span>): seq<bool>
    requires Fits(data, spans)
  {
    if spans == [] then []
    else
      var r := spans[|spans| - 1];
      SpanBits(data, spans[..|spans| - 1]) + BitsOf(data, r.start, r.len)
  }

  function Total(spans: seq<Span>): nat {
    if spans == [] then 0 else Total(spans[..|spans| - 1]) + spans[|spans| - 1].len
  }

  lemma {:induction false} SpanBitsCount(data: seq<bv8>, spans: seq<Span>)
    requires Fits(data, spans)
    ensures |SpanBits(data, spans)| == Total(spans)
  {
    if spans != [] { SpanBitsCount(data, spans[..|spans| - 1]); }
  }

  lemma {:induction false} SpanStep(data: seq<bv8>, spans: seq<Span>, k: nat)
    requires Fits(data, spans) && k < |spans|
    ensures Total(spans[..k + 1]) == Total(spans[..k]) + spans[k].len <= Total(spans)
    ensures SpanBits(data, spans[..k + 1]) == SpanBits(data, spans[..k]) + BitsOf(data, spans[k].start, spans[k].len)
  {
    assert spans[..k + 1][..k] == spans[..k];
    TotalGrows(spans, k + 1);
  }

  lemma {:induction false} TotalGrows(spans: seq<Span>, k: nat)
    requires k <= |spans|
    ensures Total(spans[..k]) <= Total(spans)
  {
    if k == |spans| {
      assert spans[..k] == spans;
    } else {
      assert spans[..|spans| - 1][..k] == spans[..k];
      TotalGrows(spans[..|spans| - 1], k);
    }
  }

  // ---- the byte-level steps ----

  /** A buffer made `n` bytes long, new bytes being zero. */
  function Resized(buffer: seq<bv8>, n: nat): (r: seq<bv8>)
    ensures |r| == n
  {
    if n <= |buffer| then buffer[..n] else buffer + Bytes(n - |buffer|, 0)
  }

  lemma {:induction false} ResizedHolds(buffer: seq<bv8>, bits: seq<bool>, n: nat)
    requires Carries(buffer, bits) && n >= |buffer|
    ensures Carries(Resized(buffer, n), bits)
  {
    hide Bit;
    var r := Resized(buffer, n);
    forall i | 0 <= i < 8 * n ensures BitAt(r, i) == (i < 8 * |buffer| && BitAt(buffer, i)) {
      if n > |buffer| {
        BitsOfJoin(buffer, Bytes(n - |buffer|, 0), i);
        if i >= 8 * |buffer| { BytesBits(n - |buffer|, i - 8 * |buffer|); }
      }
    }
  }

  /** Writing one bit behind the data. */
  function PutBit(buffer: seq<bv8>, i: nat, val: bool): (r: seq<bv8>)
    requires i < 8 * |buffer|
    ensures |r| == |buffer|
  {
    if val then SetBit(buffer, i) else buffer
  }

  lemma {:induction false} PutBitHolds(buffer: seq<bv8>, bits: seq<bool>, val: bool)
    requires Carries(buffer, bits) && |bits| < 8 * |buffer|
    ensures Carries(PutBit(buffer, |bits|, val), bits + [val])
  {
  }

  /** Copies bits into the zeros behind the data. */
  method SetBits(buffer: seq<bv8>, ghost bits: seq<bool>, at: nat, data: seq<bv8>, offset: nat, len: nat) returns (r: seq<bv8>)
    requires Carries(buffer, bits) && at == |bits| && at + len <= 8 * |buffer| && offset + len <= 8 * |data|
    ensures |r| == |buffer| && Carries(r, bits + BitsOf(data, offset, len))
  {
    hide Bit, Carries;
    r := buffer;
    ghost var all := BitsOf(data, offset, len);
    assert bits + all[..0] == bits;
    for k := 0 to len
      invariant |r| == |buffer| && Carries(r, bits + all[..k])
    {
      PutBitHolds(r, bits + all[..k], BitAt(data, offset + k));
      assert bits + all[..k] + [all[k]] == bits + all[..k + 1];
      r := PutBit(r, at + k, BitAt(data, offset + k));
    }
    assert all[..len] == all;
  }

  /** The last byte padded with ones from bit `len` on. */
  function Padded(buffer: seq<bv8>, len: nat): (r: seq<bv8>)
    requires |buffer| == Ceil8(len)
    ensures |r| == |buffer|
  {
    if len % 8 == 0 then buffer
    else buffer[|buffer| - 1 := buffer[|buffer| - 1] | !LowBits(len % 8)]
  }

  /** The last byte cleared from bit `len` on. */
  function Trimmed(buffer: seq<bv8>, len: nat): (r: seq<bv8>)
    requires |buffer| == Ceil8(len)
    ensures |r| == |buffer|
  {
    if len % 8 == 0 then buffer
    else buffer[|buffer| - 1 := buffer[|buffer| - 1] & LowBits(len % 8)]
  }

  lemma {:induction false} PaddedBits(buffer: seq<bv8>, len: nat, i: nat)
    requires |buffer| == Ceil8(len) && i < 8 * |buffer|
    ensures BitAt(Padded(buffer, len), i) == (len <= i || BitAt(buffer, i))
  {
    hide Bit;
    if len % 8 != 0 && i / 8 == |buffer| - 1 { PadLaw(buffer[|buffer| - 1], len % 8, i % 8); }
  }

  lemma {:induction false} TrimmedBits(buffer: seq<bv8>, len: nat, i: nat)
    requires |buffer| == Ceil8(len) && i < 8 * |buffer|
    ensures BitAt(Trimmed(buffer, len), i) == (i < len && BitAt(buffer, i))
  {
    hide Bit;
    if len % 8 != 0 && i / 8 == |buffer| - 1 { MaskLaw(buffer[|buffer| - 1], len % 8, i % 8); }
  }

  /** Appending ones whole bytes at a time. */
  function Filled(buffer: seq<bv8>, len: nat, count: nat): (r: seq<bv8>)
    requires |buffer| == Ceil8(len)
    ensures |r| == Ceil8(len + count)
  {
    var padded := Padded(buffer, len);
    Trimmed(padded + Bytes(Ceil8(len + count) - |padded|, 0xFF), len + count)
  }

  lemma {:induction false} FilledHolds(buffer: seq<bv8>, bits: seq<bool>, count: nat)
    requires Carries(buffer, bits) && |buffer| == Ceil8(|bits|)
    ensures Carries(Filled(buffer, |bits|, count), bits + Repeat(true, count))
  {
    hide Bit;
    var len := |bits|;
    var padded := Padded(buffer, len);
    var ones := Bytes(Ceil8(len + count) - |padded|, 0xFF);
    var r := Filled(buffer, len, count);
    forall i | 0 <= i < 8 * |r| ensures BitAt(r, i) == (i < len + count && (len <= i || BitAt(buffer, i))) {
      TrimmedBits(padded + ones, len + count, i);
      BitsOfJoin(padded, ones, i);
      if i < 8 * |padded| { PaddedBits(buffer, len, i); } else { BytesBits(|ones|, i - 8 * |padded|); }
    }
    assert BitsOf(r, 0, len + count) == bits + Repeat(true, count);
  }

  // ---- the builders ----

  class BitmaskBuilder {
    var buffer: seq<bv8>
    var len: nat

    ghost predicate Valid()
      reads this
    {
      |buffer| == Ceil8(len) && Clean(buffer, len)
    }

    /** The bits appended so far. */
    ghost function Contents(): (r: seq<bool>)
      requires Valid()
      reads this
      ensures |r| == len && Carries(buffer, r)
    {
      BitsOf(buffer, 0, len)
    }

    constructor ()
      ensures Valid() && Contents() == []
    {
      buffer, len := [], 0;
    }

    method Clear()
      modifies this
      ensures Valid() && Contents() == []
    {
      buffer, len := [], 0;
    }

    /** A buffer with room for `additional` bits more. */
    method Resize(additional: nat)
      requires Valid()
      modifies this`buffer
      ensures |buffer| == Ceil8(len + additional) && Carries(buffer, old(Contents()))
    {
      hide Bit, BitsOf, Clean, Carries;
      ResizedHolds(buffer, Contents(), Ceil8(len + additional));
      buffer := Resized(buffer, Ceil8(len + additional));
    }

    method Append(val: bool)
      requires Valid()
      modifies this
      ensures Valid() && Contents() == old(Contents()) + [val]
    {
      hide Bit;
      ghost var bits := Contents();
      Resize(1);
      PutBitHolds(buffer, bits, val);
      buffer, len := PutBit(buffer, len, val), len + 1;
    }

    method AppendSlice(data: seq<bv8>, offset: nat, n: nat)
      requires Valid() && offset + n <= 8 * |data|
      modifies this
      ensures Valid() && Contents() == old(Contents()) + BitsOf(data, offset, n)
    {
      hide Bit;
      ghost var bits := Contents();
      Resize(n);
      buffer := SetBits(buffer, bits, len, data, offset, n);
      len := len + n;
    }

    method AppendMany(val: bool, count: nat)
      requires Valid()
      modifies this
      ensures Valid() && Contents() == old(Contents()) + Repeat(val, count)
    {
      hide Bit, BitAt;
      ghost var bits := Contents();
      if val {
        FilledHolds(buffer, bits, count);
        buffer := Filled(buffer, len, count);
      } else {
        ResizedHolds(buffer, bits, Ceil8(len + count));
        ZerosHold(Resized(buffer, Ceil8(len + count)), bits, count);
        if Ceil8(len + count) > |buffer| { buffer := Resized(buffer, Ceil8(len + count)); }
      }
      len := len + count;
    }

    /** Appends chosen bits; `hint` is a lower bound on how many there are. */
    method AppendSliceIndexes(data: seq<bv8>, indexes: seq<nat>, hint: nat)
      requires Valid() && hint <= |indexes| && forall i :: 0 <= i < |indexes| ==> indexes[i] < 8 * |data|
      modifies this
      ensures Valid() && Contents() == old(Contents()) + PickBits(data, indexes)
    {
      hide Bit, BitAt, Carries;
      ghost var bits, all := Contents(), PickBits(data, indexes);
      Resize(hint);
      var k := 0;
      assert bits + all[..0] == bits;
      while len < |buffer| * 8
        invariant k <= |indexes| && |buffer| == Ceil8(|bits| + hint) && len == |bits| + k
        invariant Carries(buffer, bits + all[..k])
        decreases |buffer| * 8 - len
      {
        if k == |indexes| {
          assert all[..k] == all;
          Settled(buffer, bits + all);
          return;
        }
        PutBitHolds(buffer, bits + all[..k], BitAt(data, indexes[k]));
        assert bits + all[..k] + [all[k]] == bits + all[..k + 1];
        buffer, len := PutBit(buffer, len, BitAt(data, indexes[k])), len + 1;
        k := k + 1;
      }
      Settled(buffer, bits + all[..k]);
      while k < |indexes|
        invariant k <= |indexes| && Valid() && Contents() == bits + all[..k]
      {
        assert bits + all[..k] + [all[k]] == bits + all[..k + 1];
        Append(BitAt(data, indexes[k]));
        k := k + 1;
      }
      assert all[..k] == all;
    }

    method AppendSliceRanges(data: seq<bv8>, spans: seq<Span>)
      requires Valid() && Fits(data, spans)
      modifies this
      ensures Valid() && Contents() == old(Contents()) + SpanBits(data, spans)
    {
      hide Bit, BitAt, Carries, SpanBits, Total;
      ghost var bits := Contents();
      Resize(Total(spans));
      SpansStart(data, spans);
      assert bits + [] == bits;
      for k := 0 to |spans|
        invariant |buffer| == Ceil8(|bits| + Total(spans)) && len == |bits| + Total(spans[..k])
        invariant |SpanBits(data, spans[..k])| == Total(spans[..k])
        invariant Carries(buffer, bits + SpanBits(data, spans[..k]))
      {
        SpanStep(data, spans, k);
        buffer := SetBits(buffer, bits + SpanBits(data, spans[..k]), len, data, spans[k].start, spans[k].len);
        assert bits + SpanBits(data, spans[..k]) + BitsOf(data, spans[k].start, spans[k].len)
            == bits + SpanBits(data, spans[..k + 1]);
        len := len + spans[k].len;
      }
      assert spans[..|spans|] == spans;
      Settled(buffer, bits + SpanBits(data, spans));
    }

    /** Drops whole bytes from the front. */
    method Shift(n: nat)
      requires Valid() && n <= len && n % 8 == 0
      modifies this
      ensures Valid() && Contents() == old(Contents())[n..]
    {
      hide Bit;
      assert forall i :: 0 <= i < 8 * (|buffer| - n / 8) ==> BitAt(buffer[n / 8..], i) == BitAt(buffer, n + i);
      buffer, len := buffer[n / 8..], len - n;
    }
  }

  lemma {:induction false} ZerosHold(buffer: seq<bv8>, bits: seq<bool>, count: nat)
    requires Carries(buffer, bits) && |bits| + count <= 8 * |buffer|
    ensures Carries(buffer, bits + Repeat(false, count))
  {
  }

  lemma {:induction false} Settled(buffer: seq<bv8>, bits: seq<bool>)
    requires Carries(buffer, bits)
    ensures Clean(buffer, |bits|) && BitsOf(buffer, 0, |bits|) == bits
  {
  }

  lemma {:induction false} SpansStart(data: seq<bv8>, spans: seq<Span>)
    ensures spans[..0] == [] && Total([]) == 0 && SpanBits(data, []) == []
  {
  }

  // ---- whether a selection has nulls ----

  /** All bits of a range are set (the original counts ones word by word). */
  method AllValid(data: seq<bv8>, offset: nat, len: nat) returns (r: bool)
    requires offset + len <= 8 * |data|
    ensures r <==> BitsOf(data, offset, len) == Repeat(true, len)
  {
    hide BitAt;
    ghost var bits := BitsOf(data, offset, len);
    for k := 0 to len
      invariant forall i :: 0 <= i < k ==> bits[i]
    {
      if !BitAt(data, offset + k) {
        assert bits[k] != Repeat(true, len)[k];
        return false;
      }
      assert bits[k];
    }
    assert bits == Repeat(true, len);
    return true;
  }

  method AllIndexesValid(data: seq<bv8>, indexes: seq<nat>) returns (r: Option<nat>)
    requires forall i :: 0 <= i < |indexes| ==> indexes[i] < 8 * |data|
    ensures r.Some? <==> PickBits(data, indexes) == Repeat(true, |indexes|)
    ensures r.Some? ==> r.value == |indexes|
  {
    hide BitAt;
    for k := 0 to |indexes|
      invariant forall i :: 0 <= i < k ==> BitAt(data, indexes[i])
    {
      if !BitAt(data, indexes[k]) {
        assert PickBits(data, indexes)[k] != Repeat(true, |indexes|)[k];
        return None;
      }
    }
    assert PickBits(data, indexes) == Repeat(true, |indexes|);
    return Some(|indexes|);
  }

  method AllRangesValid(data: seq<bv8>, spans: seq<Span>) returns (r: Option<nat>)
    requires Fits(data, spans)
    ensures r.Some? <==> SpanBits(data, spans) == Repeat(true, Total(spans))
    ensures r.Some? ==> r.value == Total(spans)
  {
    hide BitAt, SpanBits, Total;
    var len := 0;
    SpansStart(data, spans);
    for k := 0 to |spans|
      invariant len == Total(spans[..k]) && SpanBits(data, spans[..k]) == Repeat(true, len)
    {
      SpanStep(data, spans, k);
      var valid := AllValid(data, spans[k].start, spans[k].len);
      if !valid {
        NotAllTrue(data, spans, k);
        return None;
      }
      len := len + spans[k].len;
    }
    assert spans[..|spans|] == spans;
    return Some(len);
  }

  lemma {:induction false} SomeFalse(bits: seq<bool>) returns (i: nat)
    requires bits != Repeat(true, |bits|)
    ensures i < |bits| && !bits[i]
  {
    assert bits != [];
    if bits[0] {
      assert bits == [true] + bits[1..] && Repeat(true, |bits|) == [true] + Repeat(true, |bits| - 1);
      i := SomeFalse(bits[1..]);
      i := i + 1;
    } else {
      i := 0;
    }
  }

  lemma {:induction false} NotAllTrue(data: seq<bv8>, spans: seq<Span>, k: nat)
    requires Fits(data, spans) && k < |spans|
    requires BitsOf(data, spans[k].start, spans[k].len) != Repeat(true, spans[k].len)
    ensures SpanBits(data, spans) != Repeat(true, Total(spans))
  {
    hide BitAt;
    var r := spans[k];
    var i := SomeFalse(BitsOf(data, r.start, r.len));
    SpanStep(data, spans, k);
    SpanBitsPrefix(data, spans, k + 1);
    SpanBitsCount(data, spans[..k]);
    SpanBitsCount(data, spans);
    assert !SpanBits(data, spans)[Total(spans[..k]) + i];
  }

  lemma {:induction false} SpanBitsPrefix(data: seq<bv8>, spans: seq<Span>, k: nat)
    requires Fits(data, spans) && k <= |spans|
    ensures SpanBits(data, spans[..k]) <= SpanBits(data, spans)
  {
    if k == |spans| {
      assert spans[..k] == spans;
    } else {
      assert spans[..|spans| - 1][..k] == spans[..k];
      SpanBitsPrefix(data, spans[..|spans| - 1], k);
    }
  }

  /** A mask that stays a counter until the first null arrives. */
  class NullmaskBuilder {
    const nulls: BitmaskBuilder
    var hasNulls: bool
    var len: nat

    ghost predicate Valid()
      reads this, nulls
    {
      nulls.Valid() && if hasNulls then false in nulls.Contents() else nulls.len == 0
    }

    ghost function Contents(): seq<bool>
      requires Valid()
      reads this, nulls
    {
      if hasNulls then nulls.Contents() else Repeat(true, len)
    }

    constructor ()
      ensures Valid() && Contents() == [] && fresh(nulls) && !hasNulls
    {
      nulls := new BitmaskBuilder();
      hasNulls, len := false, 0;
    }

    /** The number of entries. */
    function Len(): (r: nat)
      requires Valid()
      reads this, nulls
      ensures r == |Contents()|
    {
      if hasNulls then nulls.len else len
    }

    method Clear()
      requires Valid()
      modifies this, nulls
      ensures Valid() && Contents() == []
    {
      nulls.Clear();
      hasNulls, len := false, 0;
    }

    /** Writes out the ones that were only counted. */
    method InitNulls()
      requires Valid() && !hasNulls
      modifies this, nulls
      ensures nulls.Valid() && hasNulls && nulls.Contents() == old(Contents())
    {
      nulls.AppendMany(true, len);
      hasNulls := true;
    }

    method Append(val: bool)
      requires Valid()
      modifies this, nulls
      ensures Valid() && Contents() == old(Contents()) + [val]
    {
      if hasNulls {
        nulls.Append(val);
      } else if val {
        assert Repeat(true, len + 1) == Repeat(true, len) + [true];
        len := len + 1;
      } else {
        InitNulls();
        nulls.Append(false);
      }
    }

    method AppendMany(val: bool, count: nat)
      requires Valid()
      modifies this, nulls
      ensures Valid() && Contents() == old(Contents()) + Repeat(val, count)
    {
      if count == 0 {
        return;
      }
      if hasNulls {
        nulls.AppendMany(val, count);
      } else if val {
        assert Repeat(true, len + count) == Repeat(true, len) + Repeat(true, count);
        len := len + count;
      } else {
        InitNulls();
        nulls.AppendMany(false, count);
        assert Repeat(false, count)[0] == false;
      }
    }

    method AppendSlice(data: seq<bv8>, offset: nat, n: nat)
      requires Valid() && offset + n <= 8 * |data|
      modifies this, nulls
      ensures Valid() && Contents() == old(Contents()) + BitsOf(data, offset, n)
    {
      if hasNulls {
        nulls.AppendSlice(data, offset, n);
        return;
      }
      var valid := AllValid(data, offset, n);
      if valid {
        assert Repeat(true, len + n) == Repeat(true, len) + Repeat(true, n);
        len := len + n;
      } else {
        InitNulls();
        nulls.AppendSlice(data, offset, n);
        ghost var i := SomeFalse(BitsOf(data, offset, n));
      }
    }

    method AppendSliceIndexes(data: seq<bv8>, indexes: seq<nat>, hint: nat)
      requires Valid() && hint <= |indexes| && forall i :: 0 <= i < |indexes| ==> indexes[i] < 8 * |data|
      modifies this, nulls
      ensures Valid() && Contents() == old(Contents()) + PickBits(data, indexes)
    {
      if hasNulls {
        nulls.AppendSliceIndexes(data, indexes, hint);
        return;
      }
      var n := AllIndexesValid(data, indexes);
      if n.Some? {
        assert Repeat(true, len + n.value) == Repeat(true, len) + Repeat(true, n.value);
        len := len + n.value;
      } else {
        InitNulls();
        nulls.AppendSliceIndexes(data, indexes, hint);
        ghost var i := SomeFalse(PickBits(data, indexes));
      }
    }

    method AppendSliceRanges(data: seq<bv8>, spans: seq<Span>)
      requires Valid() && Fits(data, spans)
      modifies this, nulls
      ensures Valid() && Contents() == old(Contents()) + SpanBits(data, spans)
    {
      if hasNulls {
        nulls.AppendSliceRanges(data, spans);
        return;
      }
      var n := AllRangesValid(data, spans);
      if n.Some? {
        assert Repeat(true, len + n.value) == Repeat(true, len) + Repeat(true, n.value);
        len := len + n.value;
      } else {
        InitNulls();
        nulls.AppendSliceRanges(data, spans);
        SpanBitsCount(data, spans);
        ghost var i := SomeFalse(SpanBits(data, spans));
      }
    }
  }

  // ---- whole runs ----

  datatype Op =
    | One(val: bool)
    | Many(val: bool, count: nat)
    | Slice(data: seq<bv8>, offset: nat, len: nat)
    | Indexes(data: seq<bv8>, indexes: seq<nat>, hint: nat)
    | Ranges(data: seq<bv8>, spans: seq<Span>)
    | Clear

  predicate Legal(op: Op) {
    match op
    case Slice(data, offset, len) => offset + len <= 8 * |data|
    case Indexes(data, indexes, hint) => hint <= |indexes| && forall i :: 0 <= i < |indexes| ==> indexes[i] < 8 * |data|
    case Ranges(data, spans) => Fits(data, spans)
    case _ => true
  }

  /** The plain sequence that an operation leaves. */
  function Step(bits: seq<bool>, op: Op): seq<bool>
    requires Legal(op)
  {
    match op
    case One(val) => bits + [val]
    case Many(val, count) => bits + Repeat(val, count)
    case Slice(data, offset, len) => bits + BitsOf(data, offset, len)
    case Indexes(data, indexes, _) => bits + PickBits(data, indexes)
    case Ranges(data, spans) => bits + SpanBits(data, spans)
    case Clear => []
  }

  function Denoted(ops: seq<Op>): seq<bool>
    requires forall i :: 0 <= i < |ops| ==> Legal(ops[i])
  {
    if ops == [] then [] else Step(Denoted(ops[..|ops| - 1]), ops[|ops| - 1])
  }

  /** What a mask is finished to: nothing when no null was seen, else packed bits. */
  method Finished(ops: seq<Op>) returns (mask: Option<seq<bv8>>, len: nat)
    requires forall i :: 0 <= i < |ops| ==> Legal(ops[i])
    ensures len == |Denoted(ops)|
    ensures mask.Some? <==> false in Denoted(ops)
    ensures mask.Some? ==> |mask.value| == Ceil8(len) && Carries(mask.value, Denoted(ops))
  {
    hide BitAt, Carries, Step;
    var b := new NullmaskBuilder();
    for k := 0 to |ops|
      invariant fresh(b) && fresh(b.nulls) && b.Valid() && b.Contents() == Denoted(ops[..k])
    {
      assert ops[..k + 1][..k] == ops[..k];
      Perform(b, ops[k]);
    }
    assert ops[..|ops|] == ops;
    len := b.Len();
    mask := if b.hasNulls then Some(b.nulls.buffer) else None;
  }

  method Perform(b: NullmaskBuilder, op: Op)
    requires b.Valid() && Legal(op)
    modifies b, b.nulls
    ensures b.Valid() && b.Contents() == Step(old(b.Contents()), op)
  {
    hide BitAt, Carries;
    match op
    case One(val) => b.Append(val);
    case Many(val, count) => b.AppendMany(val, count);
    case Slice(data, offset, len) => b.AppendSlice(data, offset, len);
    case Indexes(data, indexes, hint) => b.AppendSliceIndexes(data, indexes, hint);
    case Ranges(data, spans) => b.AppendSliceRanges(data, spans);
    case Clear => b.Clear();
  }
}
