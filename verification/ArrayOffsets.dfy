/** Searching strictly increasing offsets (crates/array/src/util.rs). */
module ArrayOffsets {
  import opened Options

  ghost predicate Strict(s: seq<nat>) {
    forall i, j :: 0 <= i < j < |s| ==> s[i] < s[j]
  }

  /** `p` is the range of `offsets` that holds `index`. */
  predicate Holds(offsets: seq<nat>, index: nat, p: nat) {
    p + 1 < |offsets| && offsets[p] <= index < offsets[p + 1]
  }

  method BisectOffsets(offsets: seq<nat>, index: nat) returns (r: Option<nat>)
    requires offsets != [] && Strict(offsets)
    ensures r.Some? <==> offsets[0] <= index < offsets[|offsets| - 1]
    ensures r.Some? ==> Holds(offsets, index, r.value)
  {
    var beg, end := 0, |offsets| - 1;
    while end - beg > 1
      invariant 0 <= beg <= end < |offsets| && (beg == end ==> |offsets| == 1)
      invariant beg > 0 ==> offsets[beg] < index
      invariant end < |offsets| - 1 ==> index < offsets[end]
    {
      var mid := beg + (end - beg) / 2;
      if offsets[mid] == index { return Some(mid); }
      if offsets[mid] < index { beg := mid; } else { end := mid; }
    }
    if offsets[beg] <= index < offsets[end] { return Some(beg); }
    return None;
  }

  /** The range that holds an index, trying a cached range first. */
  method GetOffsetPosition(offsets: seq<nat>, index: nat, firstToTry: nat) returns (p: nat)
    requires Strict(offsets) && firstToTry < |offsets| && offsets[0] <= index < offsets[|offsets| - 1]
    ensures Holds(offsets, index, p)
  {
    if offsets[firstToTry] <= index {
      if index < offsets[firstToTry + 1] { return firstToTry; }
      var upper := offsets[firstToTry..];
      var r := BisectOffsets(upper, index);
      assert upper[r.value] == offsets[firstToTry + r.value] && upper[r.value + 1] == offsets[firstToTry + r.value + 1];
      return firstToTry + r.value;
    }
    var lower := offsets[..firstToTry + 1];
    var r := BisectOffsets(lower, index);
    assert lower[r.value] == offsets[r.value] && lower[r.value + 1] == offsets[r.value + 1];
    return r.value;
  }

  function Sum(lengths: seq<nat>): nat {
    if lengths == [] then 0 else Sum(lengths[..|lengths| - 1]) + lengths[|lengths| - 1]
  }

  method BuildOffsets(first: nat, lengths: seq<nat>) returns (offsets: seq<nat>)
    ensures |offsets| == |lengths| + 1
    ensures forall i :: 0 <= i <= |lengths| ==> offsets[i] == first + Sum(lengths[..i])
  {
    var last := first;
    offsets := [last];
    for k := 0 to |lengths|
      invariant |offsets| == k + 1 && last == first + Sum(lengths[..k])
      invariant forall i :: 0 <= i <= k ==> offsets[i] == first + Sum(lengths[..i])
    {
      assert lengths[..k + 1][..k] == lengths[..k];
      last := last + lengths[k];
      offsets := offsets + [last];
    }
  }
}
