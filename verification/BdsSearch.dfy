/** Searching ascending chains of block references (crates/bds/src/util.rs). */
module BdsSearch {
  import opened Options

  datatype Ref = Ref(number: nat, hash: string)

  ghost predicate Ascending(s: seq<Ref>) {
    forall i, j :: 0 <= i < j < |s| ==> s[i].number < s[j].number
  }

  ghost predicate LowerBound(s: seq<Ref>, n: nat, k: nat) {
    && k <= |s|
    && (forall i :: 0 <= i < k ==> s[i].number < n)
    && (forall i :: k <= i < |s| ==> s[i].number >= n)
  }

  /** Numbers of a strictly ascending chain are at least as far apart as positions. */
  lemma {:induction false} Spread(s: seq<Ref>, i: nat, j: nat)
    requires Ascending(s) && i <= j < |s|
    ensures s[j].number - s[i].number >= j - i
    decreases j - i
  {
    if i < j { Spread(s, i, j - 1); }
  }

  /** The first position at or above a number. The search starts as close to the end as the
      distance in numbers allows. */
  method Bisect(s: seq<Ref>, n: nat) returns (k: nat)
    requires Ascending(s)
    ensures LowerBound(s, n, k)
  {
    if s == [] { return 0; }
    var end := |s| - 1;
    if s[end].number < n { return end + 1; }
    if s[end].number == n { return end; }
    var diff := s[end].number - n;
    var beg := if end >= diff then end - diff else 0;
    if beg > 0 { Spread(s, beg, end); }
    if s[beg].number >= n { return beg; }
    while end - beg > 1
      invariant beg < end < |s| && s[beg].number < n < s[end].number
    {
      var mid := beg + (end - beg) / 2;
      if s[mid].number < n {
        beg := mid;
      } else if s[mid].number == n {
        return mid;
      } else {
        end := mid;
      }
    }
    return end;
  }

  // ----- where two chains part -----

  function Init<T>(s: seq<T>): seq<T>
    requires s != []
  {
    s[..|s| - 1]
  }

  function Last<T>(s: seq<T>): T
    requires s != []
  {
    s[|s| - 1]
  }

  function PopAbove(hints: seq<Ref>, n: nat): (r: seq<Ref>)
    ensures r <= hints
    ensures r != [] ==> Last(r).number <= n
    ensures forall i :: |r| <= i < |hints| ==> hints[i].number > n
  {
    if hints != [] && Last(hints).number > n then PopAbove(Init(hints), n) else hints
  }

  /** What the walk down the chain returns. */
  function ForkBase(chain: seq<Ref>, hints: seq<Ref>): Option<Ref> {
    if chain == [] then None
    else if hints != [] && Last(hints).number < Last(chain).number then ForkBase(Init(chain), hints)
    else
      var kept := PopAbove(hints, Last(chain).number);
      if kept == [] || Last(kept) == Last(chain) then Some(Last(chain))
      else ForkBase(Init(chain), Init(kept))
  }

  /** The same walk as two nested loops over shrinking slices. */
  method ComputeForkBase(chain: seq<Ref>, prev: seq<Ref>) returns (r: Option<Ref>)
    ensures r == ForkBase(chain, prev)
  {
    var hints, i := prev, |chain|;
    assert chain[..i] == chain;
    while i > 0
      invariant i <= |chain| && ForkBase(chain, prev) == ForkBase(chain[..i], hints)
    {
      i := i - 1;
      var b := chain[i];
      ghost var was := hints;
      assert Init(chain[..i + 1]) == chain[..i] && Last(chain[..i + 1]) == b;
      if hints != [] && hints[|hints| - 1].number < b.number { continue; }
      while hints != [] && hints[|hints| - 1].number > b.number
        invariant PopAbove(was, b.number) == PopAbove(hints, b.number)
        decreases |hints|
      {
        hints := hints[..|hints| - 1];
      }
      assert PopAbove(was, b.number) == hints;
      if hints == [] { return Some(b); }
      if b == hints[|hints| - 1] { return Some(b); }
      hints := hints[..|hints| - 1];
    }
    r := None;
  }

  ghost predicate Under(b: Ref, hints: seq<Ref>) {
    forall i :: 0 <= i < |hints| ==> b.number < hints[i].number
  }

  ghost predicate Tops(b: Ref, chain: seq<Ref>, hints: seq<Ref>) {
    b in hints && forall c :: c in chain && c in hints ==> c.number <= b.number
  }

  ghost predicate TopsUnder(b: Ref, chain: seq<Ref>, hints: seq<Ref>) {
    && (forall c :: c in chain ==> c !in hints)
    && Under(b, hints) && forall c :: c in chain && Under(c, hints) ==> c.number <= b.number
  }

  /** The highest block of the chain among the hints; if there is none, the highest block of the
      chain below all hints; if there is none either, nothing. */
  ghost predicate IsForkBase(chain: seq<Ref>, hints: seq<Ref>, r: Option<Ref>) {
    if r.Some? then r.value in chain && (Tops(r.value, chain, hints) || TopsUnder(r.value, chain, hints))
    else forall c :: c in chain ==> c !in hints && !Under(c, hints)
  }

  ghost predicate Dense(hints: seq<Ref>) {
    forall i :: 0 <= i < |hints| ==> hints[i].number == hints[0].number + i
  }

  /** The invariant of the walk: with the hints still in hand, the base of the rest of the chain is
      the base of the whole. `hints` is what is left of `all`. */
  lemma {:induction false} WalkIsExact(whole: seq<Ref>, all: seq<Ref>, n: nat, m: nat)
    requires Ascending(whole) && Dense(all) && n <= |whole| && m <= |all|
    requires forall i :: n <= i < |whole| ==> whole[i] !in all && !Under(whole[i], all)
    requires forall i, j :: m <= i < |all| && 0 <= j < n ==> all[i].number > whole[j].number
    ensures IsForkBase(whole, all, ForkBase(whole[..n], all[..m]))
    decreases n
  {
    hide IsForkBase, Tops, TopsUnder, PopAbove, Dense, Under;
    if n == 0 {
      NothingLeft(whole, all);
    } else {
      var chain, hints, b := whole[..n], all[..m], whole[n - 1];
      assert Init(chain) == whole[..n - 1] && Last(chain) == b;
      if hints != [] && Last(hints).number < b.number {
        AboveIsNoBase(whole, all, n, m);
        WalkIsExact(whole, all, n - 1, m);
      } else {
        var kept := PopAbove(hints, b.number);
        assert kept == all[..|kept|];
        assert forall i :: |kept| <= i < |all| ==> all[i].number > b.number;
        if kept == [] {
          BelowIsBase(whole, all, n);
        } else {
          assert Init(kept) == all[..|kept| - 1];
          HintAtBlock(all, m, b, |kept|);
          if Last(kept) == b {
            MatchIsBase(whole, all, n, |kept|);
          } else {
            MismatchIsNoBase(whole, all, n, |kept|);
            WalkIsExact(whole, all, n - 1, |kept| - 1);
          }
        }
      }
    }
  }

  lemma {:induction false} NothingLeft(whole: seq<Ref>, all: seq<Ref>)
    requires forall i :: 0 <= i < |whole| ==> whole[i] !in all && !Under(whole[i], all)
    ensures IsForkBase(whole, all, None)
  {
  }

  lemma {:induction false} AboveIsNoBase(whole: seq<Ref>, all: seq<Ref>, n: nat, m: nat)
    requires 0 < n <= |whole| && 0 < m <= |all| && Dense(all) && all[m - 1].number < whole[n - 1].number
    requires forall i :: m <= i < |all| ==> all[i].number > whole[n - 1].number
    ensures whole[n - 1] !in all && !Under(whole[n - 1], all)
  {
  }

  /** In a dense list the hint at or below a block that it spans sits exactly at the block. */
  lemma {:induction false} HintAtBlock(all: seq<Ref>, m: nat, b: Ref, k: nat)
    requires Dense(all) && 0 < k <= m <= |all| && all[k - 1].number <= b.number <= all[m - 1].number
    requires forall i :: k <= i < |all| ==> all[i].number > b.number
    ensures all[k - 1].number == b.number
  {
    assert k < |all| ==> all[k].number > b.number;
  }

  lemma {:induction false} BelowIsBase(whole: seq<Ref>, all: seq<Ref>, n: nat)
    requires Ascending(whole) && 0 < n <= |whole|
    requires forall i :: n <= i < |whole| ==> whole[i] !in all && !Under(whole[i], all)
    requires forall i :: 0 <= i < |all| ==> all[i].number > whole[n - 1].number
    ensures IsForkBase(whole, all, Some(whole[n - 1]))
  {
    assert TopsUnder(whole[n - 1], whole, all);
  }

  lemma {:induction false} MatchIsBase(whole: seq<Ref>, all: seq<Ref>, n: nat, k: nat)
    requires Ascending(whole) && 0 < n <= |whole| && 0 < k <= |all| && all[k - 1] == whole[n - 1]
    requires forall i :: n <= i < |whole| ==> whole[i] !in all && !Under(whole[i], all)
    ensures IsForkBase(whole, all, Some(whole[n - 1]))
  {
  }

  lemma {:induction false} MismatchIsNoBase(whole: seq<Ref>, all: seq<Ref>, n: nat, k: nat)
    requires Dense(all) && Ascending(whole) && 0 < n <= |whole| && 0 < k <= |all|
    requires all[k - 1].number == whole[n - 1].number && all[k - 1] != whole[n - 1]
    requires forall i :: k <= i < |all| ==> all[i].number > whole[n - 1].number
    ensures whole[n - 1] !in all && !Under(whole[n - 1], all)
    ensures forall j :: 0 <= j < n - 1 ==> whole[j].number < all[k - 1].number
  {
  }

  /** On densely numbered hints the walk finds the fork base of every chain, however sparse. */
  lemma {:induction false} DenseHintsAreExact(chain: seq<Ref>, hints: seq<Ref>)
    requires Ascending(chain) && Dense(hints)
    ensures IsForkBase(chain, hints, ForkBase(chain, hints))
  {
    assert chain[..|chain|] == chain && hints[..|hints|] == hints;
    WalkIsExact(chain, hints, |chain|, |hints|);
  }

  ghost predicate ExactForAll(hints: seq<Ref>) {
    forall chain :: Ascending(chain) ==> IsForkBase(chain, hints, ForkBase(chain, hints))
  }

  /** A hole in the hints defeats the walk on some chain with a block in that hole. */
  lemma {:induction false} HoleDefeats(hints: seq<Ref>, i: nat) returns (chain: seq<Ref>)
    requires Ascending(hints) && i + 1 < |hints| && hints[i].number + 1 < hints[i + 1].number
    ensures Ascending(chain) && !IsForkBase(chain, hints, ForkBase(chain, hints))
  {
    var stray := Ref(hints[i].number + 1, "");
    // above the first hint the matching block itself is lost; at the first hint a mismatch passes
    var low := if i == 0 then Ref(hints[0].number, hints[0].hash + "'") else hints[i];
    chain := [low, stray];
    WalkIntoHole(hints, i, low, stray);
    assert stray !in hints && !Under(stray, hints) && !Under(low, hints) && low in chain && hints[i] in hints;
    assert i == 0 ==> low !in hints;
  }

  lemma {:induction false} WalkIntoHole(hints: seq<Ref>, i: nat, low: Ref, stray: Ref)
    requires Ascending(hints) && i + 1 < |hints| && hints[i].number + 1 < hints[i + 1].number
    requires stray.number == hints[i].number + 1 && low.number == hints[i].number
    ensures ForkBase([low, stray], hints) == if i == 0 then Some(low) else None
  {
    var chain := [low, stray];
    assert Init(chain) == [low] && Last(chain) == stray;
    var kept := PopAbove(hints, stray.number);
    assert |kept| == i + 1;
    assert kept == hints[..i + 1] && Last(kept) == hints[i];
    assert Init(kept) == hints[..i];
    assert Init([low]) == [] && Last([low]) == low;
    assert ForkBase(chain, hints) == ForkBase([low], hints[..i]);
    if i > 0 { assert Last(hints[..i]) == hints[i - 1]; }
    WalkFromOne(low, hints[..i]);
  }

  lemma {:induction false} WalkFromOne(low: Ref, hints: seq<Ref>)
    requires hints == [] || Last(hints).number < low.number
    ensures ForkBase([low], hints) == if hints == [] then Some(low) else None
  {
    assert Init([low]) == [] && Last([low]) == low;
    if hints == [] { assert PopAbove(hints, low.number) == []; }
  }

  /** The walk is exact for every chain if and only if the hints are densely numbered. */
  lemma {:induction false} ExactIffDense(hints: seq<Ref>)
    requires Ascending(hints)
    ensures ExactForAll(hints) <==> Dense(hints)
  {
    if Dense(hints) {
      forall chain | Ascending(chain) ensures IsForkBase(chain, hints, ForkBase(chain, hints)) {
        DenseHintsAreExact(chain, hints);
      }
    } else {
      var i := FirstHole(hints);
      var chain := HoleDefeats(hints, i);
    }
  }

  lemma {:induction false} FirstHole(hints: seq<Ref>) returns (i: nat)
    requires Ascending(hints) && !Dense(hints)
    ensures i + 1 < |hints| && hints[i].number + 1 < hints[i + 1].number
  {
    i := 0;
    while i + 1 < |hints| && hints[i].number + 1 == hints[i + 1].number
      invariant i < |hints| && forall j :: 0 <= j <= i ==> hints[j].number == hints[0].number + j
    {
      i := i + 1;
    }
  }
}
