/** Bit operations on bytes, least significant bit first. */
module Bits {

  function Pow2(i: nat): bv8
    requires i < 8
  {
    match i case 0 => 1 case 1 => 2 case 2 => 4 case 3 => 8 case 4 => 16 case 5 => 32 case 6 => 64 case _ => 128
  }

  /** `(1 << i) - 1`. */
  function LowBits(i: nat): bv8
    requires i < 8
  {
    match i case 0 => 0 case 1 => 1 case 2 => 3 case 3 => 7 case 4 => 15 case 5 => 31 case 6 => 63 case _ => 127
  }

  predicate Bit(b: bv8, i: nat)
    requires i < 8
  {
    b & Pow2(i) != 0
  }

  /** Bit `i` of a byte string. */
  predicate BitAt(data: seq<bv8>, i: nat)
    requires i < 8 * |data|
  {
    Bit(data[i / 8], i % 8)
  }

  function Ceil8(n: nat): nat {
    (n + 7) / 8
  }

  /** Bits `offset..offset + len` of a byte string. */
  function BitsOf(data: seq<bv8>, offset: nat, len: nat): (r: seq<bool>)
    requires offset + len <= 8 * |data|
    ensures |r| == len && forall i :: 0 <= i < len ==> r[i] == BitAt(data, offset + i)
  {
    seq(len, i requires 0 <= i < len => BitAt(data, offset + i))
  }

  lemma {:induction false} SetLaw(b: bv8, i: nat, j: nat)
    requires i < 8 && j < 8
    ensures Bit(b | Pow2(i), j) == (i == j || Bit(b, j))
  {
  }

  lemma {:induction false} PadLaw(b: bv8, i: nat, j: nat)
    requires i < 8 && j < 8
    ensures Bit(b | !LowBits(i), j) == (i <= j || Bit(b, j))
  {
  }

  lemma {:induction false} MaskLaw(b: bv8, i: nat, j: nat)
    requires i < 8 && j < 8
    ensures Bit(b & LowBits(i), j) == (j < i && Bit(b, j))
  {
  }

  lemma {:induction false} FillLaw(j: nat)
    requires j < 8
    ensures Bit(0xFF, j) && !Bit(0, j)
  {
  }

  function SetBit(data: seq<bv8>, i: nat): (r: seq<bv8>)
    requires i < 8 * |data|
    ensures |r| == |data|
    ensures forall j :: 0 <= j < 8 * |data| ==> BitAt(r, j) == (j == i || BitAt(data, j))
  {
    hide Bit;
    var r := data[i / 8 := data[i / 8] | Pow2(i % 8)];
    assert forall j :: 0 <= j < 8 * |data| ==> BitAt(r, j) == (j == i || BitAt(data, j)) by {
      forall j | 0 <= j < 8 * |data| ensures BitAt(r, j) == (j == i || BitAt(data, j)) {
        if j / 8 == i / 8 { SetLaw(data[i / 8], i % 8, j % 8); }
      }
    }
    r
  }

  /** `n` copies of a byte. */
  function Bytes(n: nat, b: bv8): (r: seq<bv8>)
    ensures |r| == n && forall i :: 0 <= i < n ==> r[i] == b
  {
    seq(n, i requires 0 <= i < n => b)
  }

  lemma {:induction false} BytesBits(n: nat, i: nat)
    requires i < 8 * n
    ensures BitAt(Bytes(n, 0xFF), i) && !BitAt(Bytes(n, 0), i)
  {
    FillLaw(i % 8);
  }

  lemma {:induction false} BitsOfJoin(a: seq<bv8>, b: seq<bv8>, i: nat)
    requires i < 8 * |a + b|
    ensures BitAt(a + b, i) == if i < 8 * |a| then BitAt(a, i) else BitAt(b, i - 8 * |a|)
  {
  }
}
