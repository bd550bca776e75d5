/** Selecting elements of a sequence by index. */
module Picking {

  function Iota(n: nat): (r: seq<nat>)
    ensures |r| == n && forall i :: 0 <= i < n ==> r[i] == i
  {
    seq(n, i requires 0 <= i < n => i)
  }

  /** The indexes `start..start + len`. */
  function Run(start: nat, len: nat): (r: seq<nat>)
    ensures |r| == len && forall i :: 0 <= i < len ==> r[i] == start + i
  {
    seq(len, i requires 0 <= i < len => start + i)
  }

  function Pick<T>(s: seq<T>, order: seq<nat>): (r: seq<T>)
    requires forall i :: 0 <= i < |order| ==> order[i] < |s|
    ensures |r| == |order| && forall i :: 0 <= i < |order| ==> r[i] == s[order[i]]
  {
    seq(|order|, i requires 0 <= i < |order| => s[order[i]])
  }

  /** Picking by a part of an order is that part of the pick. */
  lemma {:induction false} PickWindow<T>(s: seq<T>, order: seq<nat>, offset: nat, len: nat)
    requires offset + len <= |order| && forall i :: 0 <= i < |order| ==> order[i] < |s|
    ensures Pick(s, order[offset..offset + len]) == Pick(s, order)[offset..offset + len]
  {
  }

  lemma {:induction false} PickJoin<T>(s: seq<T>, a: seq<nat>, b: seq<nat>)
    requires forall i :: 0 <= i < |a| ==> a[i] < |s|
    requires forall i :: 0 <= i < |b| ==> b[i] < |s|
    ensures Pick(s, a + b) == Pick(s, a) + Pick(s, b)
  {
  }

  lemma {:induction false} PickRun<T>(s: seq<T>, start: nat, len: nat)
    requires start + len <= |s|
    ensures Pick(s, Run(start, len)) == s[start..start + len]
  {
  }
}
