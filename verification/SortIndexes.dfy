/** Sorting row indexes: sorted permutations and what they share (crates/array/src/sort/sorting.rs). */
module SortIndexes {
  import Bits
  import Columns
  import opened Options
  import opened Picking
  import opened SortOrder

  ghost predicate Permutation(order: seq<nat>, n: nat) {
    |order| == n && multiset(order) == multiset(Iota(n))
  }

  lemma {:induction false} PermutationBounds(order: seq<nat>, n: nat)
    requires Permutation(order, n)
    ensures forall i :: 0 <= i < |order| ==> order[i] < n
  {
    forall i | 0 <= i < |order| ensures order[i] < n {
      assert order[i] in multiset(order);
      assert order[i] in Iota(n);
    }
  }

  lemma {:induction false} Removed<T>(s: seq<T>, k: nat)
    requires k < |s|
    ensures multiset(s) == multiset(s[..k] + s[k + 1..]) + multiset{s[k]}
    ensures multiset(s[..k] + s[k + 1..]) == multiset(s) - multiset{s[k]}
  {
    assert s == s[..k] + [s[k]] + s[k + 1..];
  }

  function Without<T>(s: seq<T>, k: nat): (r: seq<T>)
    requires k < |s|
    ensures |r| == |s| - 1
  {
    s[..k] + s[k + 1..]
  }

  lemma {:induction false} PickWithout<T>(s: seq<T>, order: seq<nat>, k: nat)
    requires k < |order| && forall i :: 0 <= i < |order| ==> order[i] < |s|
    ensures forall i :: 0 <= i < |order| - 1 ==> Without(order, k)[i] < |s|
    ensures multiset(Pick(s, order)) == multiset(Pick(s, Without(order, k))) + multiset{s[order[k]]}
  {
    Removed(Pick(s, order), k);
    assert Without(Pick(s, order), k) == Pick(s, Without(order, k));
  }

  lemma {:induction false} SameWithout(a: seq<nat>, b: seq<nat>) returns (k: nat)
    requires multiset(a) == multiset(b) && a != []
    ensures k < |b| && b[k] == a[0] && multiset(Without(a, 0)) == multiset(Without(b, k))
  {
    assert a[0] in multiset(b);
    k :| 0 <= k < |b| && b[k] == a[0];
    Removed(a, 0);
    Removed(b, k);
  }

  /** Picking by two orders that hold the same indexes yields the same rows. */
  lemma {:induction false} PickKeepsRows<T>(s: seq<T>, a: seq<nat>, b: seq<nat>)
    requires forall i :: 0 <= i < |a| ==> a[i] < |s|
    requires forall i :: 0 <= i < |b| ==> b[i] < |s|
    requires multiset(a) == multiset(b)
    ensures multiset(Pick(s, a)) == multiset(Pick(s, b))
    decreases |a|
  {
    if a == [] {
      assert |multiset(b)| == 0;
      assert Pick(s, a) == [] && Pick(s, b) == [];
    } else {
      hide Without, Pick;
      var k := SameWithout(a, b);
      PickWithout(s, a, 0);
      PickWithout(s, b, k);
      PickKeepsRows(s, Without(a, 0), Without(b, k));
    }
  }

  lemma {:induction false} PermutedRows<T>(s: seq<T>, order: seq<nat>)
    requires Permutation(order, |s|)
    ensures forall i :: 0 <= i < |order| ==> order[i] < |s|
    ensures multiset(Pick(s, order)) == multiset(s)
  {
    PermutationBounds(order, |s|);
    PickKeepsRows(s, order, Iota(|s|));
    assert Pick(s, Iota(|s|)) == s;
  }

  // ---- sorted keys ----

  ghost predicate Uniform(keys: seq<Key>, width: nat) {
    forall i :: 0 <= i < |keys| ==> |keys[i]| == width
  }

  ghost predicate Sorted(keys: seq<Key>, width: nat)
    requires Uniform(keys, width)
  {
    forall i, j :: 0 <= i < j < |keys| ==> KeyLe(keys[i], keys[j])
  }

  lemma {:induction false} InsertKeepsSorted(keys: seq<Key>, width: nat, k: Key, p: nat)
    requires Uniform(keys, width) && Sorted(keys, width) && |k| == width && p <= |keys|
    requires forall i :: 0 <= i < p ==> KeyLe(keys[i], k)
    requires p < |keys| ==> CompareKeys(keys[p], k).Greater?
    ensures Uniform(keys[..p] + [k] + keys[p..], width) && Sorted(keys[..p] + [k] + keys[p..], width)
  {
    hide CompareKeys, KeyLe;
    var s := keys[..p] + [k] + keys[p..];
    forall j | p <= j < |keys| ensures KeyLe(k, keys[j]) {
      KeysTotal(keys[p], k);
      KeyLeIsExact(k, keys[p]);
      if p < j { KeysTransitive(k, keys[p], keys[j]); }
    }
    forall i, j | 0 <= i < j < |s| ensures KeyLe(s[i], s[j]) {
      assert s[i] == if i < p then keys[i] else if i == p then k else keys[i - 1];
      assert s[j] == if j < p then keys[j] else if j == p then k else keys[j - 1];
    }
  }

  /** Two sorted arrangements of the same keys are one and the same. */
  lemma {:induction false} SortedKeysAreUnique(a: seq<Key>, b: seq<Key>, width: nat)
    requires Uniform(a, width) && Sorted(a, width) && Uniform(b, width) && Sorted(b, width)
    requires multiset(a) == multiset(b)
    ensures a == b
    decreases |a|
  {
    hide CompareKeys, KeyLe, Sorted;
    SameLength(a, b);
    if a != [] {
      var n := |a| - 1;
      SameLast(a, b, width);
      LastRemoved(a);
      LastRemoved(b);
      InitSorted(a, width);
      InitSorted(b, width);
      SortedKeysAreUnique(a[..n], b[..n], width);
      InitAndLast(a, b);
    }
  }

  lemma {:induction false} InitAndLast(a: seq<Key>, b: seq<Key>)
    requires |a| == |b| > 0 && a[..|a| - 1] == b[..|b| - 1] && a[|a| - 1] == b[|b| - 1]
    ensures a == b
  {
    assert a == a[..|a| - 1] + [a[|a| - 1]] && b == b[..|b| - 1] + [b[|b| - 1]];
  }

  lemma {:induction false} SameLength(a: seq<Key>, b: seq<Key>)
    requires multiset(a) == multiset(b)
    ensures |a| == |b|
  {
    assert |a| == |multiset(a)| == |multiset(b)| == |b|;
  }

  lemma {:induction false} LastRemoved(a: seq<Key>)
    requires a != []
    ensures multiset(a[..|a| - 1]) == multiset(a) - multiset{a[|a| - 1]}
  {
    var n := |a| - 1;
    Removed(a, n);
    assert a[..n] + a[n + 1..] == a[..n];
  }

  lemma {:induction false} InitSorted(a: seq<Key>, width: nat)
    requires Uniform(a, width) && Sorted(a, width) && a != []
    ensures Uniform(a[..|a| - 1], width) && Sorted(a[..|a| - 1], width)
  {
  }

  lemma {:induction false} SameLast(a: seq<Key>, b: seq<Key>, width: nat)
    requires Uniform(a, width) && Sorted(a, width) && Uniform(b, width) && Sorted(b, width)
    requires multiset(a) == multiset(b) && a != [] && |a| == |b|
    ensures a[|a| - 1] == b[|b| - 1]
  {
    hide CompareKeys, Sorted;
    var n := |a| - 1;
    assert a[n] in multiset(b) && b[n] in multiset(a);
    var i :| 0 <= i < |b| && b[i] == a[n];
    var j :| 0 <= j < |a| && a[j] == b[n];
    KeysTotal(a[n], b[n]);
    KeyLeIsExact(a[n], b[n]);
    KeyLeIsExact(b[n], a[n]);
    LastIsGreatest(a, width, j);
    LastIsGreatest(b, width, i);
  }

  lemma {:induction false} LastIsGreatest(a: seq<Key>, width: nat, j: nat)
    requires Uniform(a, width) && Sorted(a, width) && j < |a|
    ensures KeyLe(a[j], a[|a| - 1])
  {
    hide KeyBefore;
  }

  // ---- sorting ----

  function KeysOf(cols: seq<seq<Cell>>, n: nat): (r: seq<Key>)
    requires Tall(cols, n)
    ensures |r| == n && forall i :: 0 <= i < n ==> r[i] == KeyAt(cols, n, i)
  {
    seq(n, i requires 0 <= i < n => KeyAt(cols, n, i))
  }

  /** An order of rows `0..n` that arranges their keys. */
  ghost predicate Arranges(order: seq<nat>, cols: seq<seq<Cell>>, n: nat)
    requires Tall(cols, n)
  {
    && Permutation(order, n)
    && (forall i :: 0 <= i < |order| ==> order[i] < n)
    && Sorted(Pick(KeysOf(cols, n), order), |cols|)
  }

  /** The rows below `k`, sorted. */
  ghost predicate Partial(order: seq<nat>, keys: seq<Key>, width: nat, k: nat) {
    && |order| == k <= |keys| && Uniform(keys, width)
    && multiset(order) == multiset(Iota(k))
    && (forall i :: 0 <= i < |order| ==> order[i] < |keys|)
    && Sorted(Pick(keys, order), width)
  }

  lemma {:induction false} PartialGrows(order: seq<nat>, keys: seq<Key>, width: nat, k: nat, p: nat)
    requires Partial(order, keys, width, k) && k < |keys| && p <= |order|
    requires forall i :: 0 <= i < p ==> KeyLe(keys[order[i]], keys[k])
    requires p < |order| ==> CompareKeys(keys[order[p]], keys[k]).Greater?
    ensures Partial(Insert(order, k, p), keys, width, k + 1)
  {
    hide CompareKeys, KeyLe;
    InsertKeepsSorted(Pick(keys, order), width, keys[k], p);
    Inserted(keys, order, k, p);
  }

  // ---- when a table can be sorted ----

  /** The key of row `i`. */
  function KeyOf(views: seq<View>, n: nat, i: nat): (r: Key)
    requires ViewsOk(views, n) && i < n
    ensures |r| == |views|
  {
    KeyAt(Shown(views, n), n, i)
  }

  /** No two rows tie in the key columns before one that cannot be read for them. */
  ghost predicate Sortable(views: seq<View>, n: nat)
    requires ViewsOk(views, n)
  {
    forall a, b :: 0 <= a < b < n ==> Comparable(views, n, a, b)
  }

  /** Key columns whose bits all start at bit 0 can always be sorted. */
  lemma {:induction false} AtStartIsSortable(views: seq<View>, n: nat)
    requires ViewsOk(views, n) && forall k :: 0 <= k < |views| ==> views[k].AtStart()
    ensures Sortable(views, n)
  {
  }

  /** With a first key column whose null mask starts past bit 0, the last row cannot be compared with any other, whatever the
      rows hold, so two or more rows cannot be sorted. */
  lemma {:induction false} InsideIsNotSortable(views: seq<View>, n: nat)
    requires ViewsOk(views, n) && views != [] && n >= 2
    requires views[0].mask.Some? && views[0].mask.value.offset > 0
    ensures !Sortable(views, n) && forall a, last :: 0 <= a < n && last == n - 1 ==> !Comparable(views, n, a, last)
  {
    forall a, last | 0 <= a < n && last == n - 1 ensures !Comparable(views, n, a, last) {
      assert TiesBefore(views, n, a, last, 0);
      assert !Legible(views[0], a, last);
    }
    assert !Comparable(views, n, 0, n - 1);
  }

  /** One key column that is not boolean: its mask has to start at bit 0, unless there is nothing to compare. */
  lemma {:induction false} OneKeySortable(v: View, n: nat)
    requires v.Ok() && v.Len() == n && v.data.Plain?
    ensures Sortable([v], n) <==> n < 2 || v.AtStart()
  {
    if n >= 2 && !v.AtStart() {
      InsideIsNotSortable([v], n);
    } else if n >= 2 {
      AtStartIsSortable([v], n);
    }
  }

  /** Rows 1 and 2 of a nullable column without nulls: the two values are there, but the second cannot be asked for. */
  lemma {:induction false} TwoRowsNotSortable()
    ensures var whole := View(Plain([Num(9), Num(7), Num(5)]), Some(Columns.Bitmask([0xFF], 0, 3)));
            && whole.Ok() && Sortable([whole], 3)
            && var v := whole.Sub(1, 2);
            && v.Ok() && v.Len() == 2 && v.Cells() == [Some(Num(7)), Some(Num(5))] && !Sortable([v], 2)
  {
    var whole := View(Plain([Num(9), Num(7), Num(5)]), Some(Columns.Bitmask([0xFF], 0, 3)));
    var v := whole.Sub(1, 2);
    OneKeySortable(whole, 3);
    OneKeySortable(v, 2);
    assert v.CellAt(0) == Some(Num(7)) && v.CellAt(1) == Some(Num(5));
  }

  lemma {:induction false} ComparableEitherWay(views: seq<View>, n: nat, a: nat, b: nat)
    requires ViewsOk(views, n) && a < n && b < n
    ensures Comparable(views, n, a, b) <==> Comparable(views, n, b, a)
  {
    hide View.CellAt, View.Ok, View.Len;
    forall k | 0 <= k < |views| ensures TiesBefore(views, n, a, b, k) <==> TiesBefore(views, n, b, a, k) {}
  }

  /** A row that comes behind a row greater than `k`, and was compared with that row, can be compared with `k` as well. */
  lemma {:induction false} ComparableBeyond(views: seq<View>, n: nat, y: nat, z: nat, k: nat)
    requires ViewsOk(views, n) && y < n && z < n && k < n
    requires Comparable(views, n, z, k) && Comparable(views, n, z, y)
    requires CompareKeys(KeyOf(views, n, z), KeyOf(views, n, k)).Greater?
    requires KeyLe(KeyOf(views, n, z), KeyOf(views, n, y))
    ensures Comparable(views, n, y, k)
  {
    hide View.Ok, View.Len, Comparable, CompareCells, KeyLe;
    if views == [] {
      NothingIsComparable(n, y, k);
    } else {
      ComparableUnfolds(views, n, z, k);
      ComparableUnfolds(views, n, z, y);
      ComparableUnfolds(views, n, y, k);
      KeysUnfold(views, n, z, k);
      KeysUnfold(views, n, z, y);
      KeyLeIsExact(KeyOf(views, n, z), KeyOf(views, n, y));
      var (cy, cz, ck) := (views[0].CellAt(y), views[0].CellAt(z), views[0].CellAt(k));
      CellsTotal(cz, ck);
      CellsTotal(cz, cy);
      assert Legible(views[0], y, k) by { LegibleBeyond(views[0], y, z, k); }
      if cy == ck {
        hide Legible;
        assert cz == ck;
        KeyLeIsExact(KeyOf(views[1..], n, z), KeyOf(views[1..], n, y));
        ComparableBeyond(views[1..], n, y, z, k);
      }
    }
  }

  lemma {:induction false} NothingIsComparable(n: nat, a: nat, b: nat)
    requires a < n && b < n
    ensures Comparable([], n, a, b)
  {
  }

  lemma {:induction false} LegibleBeyond(v: View, y: nat, z: nat, k: nat)
    requires v.Ok() && y < v.Len() && z < v.Len() && k < v.Len()
    requires Legible(v, z, k) && Legible(v, z, y) && !CompareCells(v.CellAt(z), v.CellAt(y)).Greater?
    ensures Legible(v, y, k)
  {
    hide Bits.BitAt, CompareValues;
  }

  lemma {:induction false} KeysUnfold(views: seq<View>, n: nat, a: nat, b: nat)
    requires ViewsOk(views, n) && a < n && b < n && views != []
    ensures ViewsOk(views[1..], n)
    ensures var (x, y) := (views[0].CellAt(a), views[0].CellAt(b));
            CompareKeys(KeyOf(views, n, a), KeyOf(views, n, b))
            == if CompareCells(x, y).Equal?
               then CompareKeys(KeyOf(views[1..], n, a), KeyOf(views[1..], n, b)) else CompareCells(x, y)
  {
    hide View.Ok, View.Len, View.CellAt, CompareCells;
    var ka, kb := KeyOf(views, n, a), KeyOf(views, n, b);
    assert ka[1..] == KeyOf(views[1..], n, a) && kb[1..] == KeyOf(views[1..], n, b);
    assert ka[0] == views[0].CellAt(a) && kb[0] == views[0].CellAt(b);
  }

  /** Any two of the rows in `order` have been, or could have been, compared. */
  ghost predicate AllComparable(order: seq<nat>, views: seq<View>, n: nat)
    requires ViewsOk(views, n) && forall i :: 0 <= i < |order| ==> order[i] < n
  {
    forall i, j :: 0 <= i < j < |order| ==> Comparable(views, n, order[i], order[j])
  }

  function Insert(order: seq<nat>, k: nat, p: nat): (s: seq<nat>)
    requires p <= |order|
    ensures |s| == |order| + 1
    ensures forall i :: 0 <= i < |s| ==> s[i] == if i < p then order[i] else if i == p then k else order[i - 1]
  {
    order[..p] + [k] + order[p..]
  }

  /** Row `k` was compared up to slot `p`, and the row there, if any, is greater. */
  ghost predicate Slot(order: seq<nat>, views: seq<View>, n: nat, k: nat, p: nat)
    requires ViewsOk(views, n) && k < n && p <= |order| && forall i :: 0 <= i < |order| ==> order[i] < n
  {
    && (forall i :: 0 <= i < |order| && i <= p ==> Comparable(views, n, order[i], k))
    && (forall i :: 0 <= i < p ==> KeyLe(KeyOf(views, n, order[i]), KeyOf(views, n, k)))
    && (p < |order| ==> CompareKeys(KeyOf(views, n, order[p]), KeyOf(views, n, k)).Greater?)
  }

  /** Inserting a row in its slot leaves all rows comparable. */
  lemma {:induction false} AllComparableGrows(order: seq<nat>, views: seq<View>, n: nat, k: nat, p: nat)
    requires ViewsOk(views, n) && k < n && p <= |order| && (forall i :: 0 <= i < |order| ==> order[i] < n)
    requires AllComparable(order, views, n) && Ordered(order, views, n) && Slot(order, views, n, k, p)
    ensures AllComparable(Insert(order, k, p), views, n)
  {
    hide CompareKeys, Comparable, ViewsOk, KeyLe, KeyOf;
    forall j | p <= j < |order| ensures Comparable(views, n, k, order[j]) {
      if p < j { ComparableBeyond(views, n, order[j], order[p], k); }
      ComparableEitherWay(views, n, order[j], k);
    }
    PairsInserted(order, views, n, k, p);
  }

  lemma {:induction false} PairsInserted(order: seq<nat>, views: seq<View>, n: nat, k: nat, p: nat)
    requires ViewsOk(views, n) && k < n && p <= |order| && (forall i :: 0 <= i < |order| ==> order[i] < n)
    requires AllComparable(order, views, n)
    requires forall i :: 0 <= i < p ==> Comparable(views, n, order[i], k)
    requires forall j :: p <= j < |order| ==> Comparable(views, n, k, order[j])
    ensures AllComparable(Insert(order, k, p), views, n)
  {
    hide Comparable, ViewsOk;
    var s := Insert(order, k, p);
    forall i, j | 0 <= i < j < |s| ensures Comparable(views, n, s[i], s[j]) {
      if i == p {
        assert s[j] == order[j - 1];
      } else if j == p {
        assert s[i] == order[i];
      } else {
        var (x, y) := (if i < p then i else i - 1, if j < p then j else j - 1);
        assert s[i] == order[x] && s[j] == order[y];
      }
    }
  }

  ghost predicate Ordered(order: seq<nat>, views: seq<View>, n: nat)
    requires ViewsOk(views, n) && forall i :: 0 <= i < |order| ==> order[i] < n
  {
    forall i, j :: 0 <= i < j < |order| ==> KeyLe(KeyOf(views, n, order[i]), KeyOf(views, n, order[j]))
  }

  lemma {:induction false} PartialOrdered(order: seq<nat>, views: seq<View>, n: nat, k: nat)
    requires ViewsOk(views, n) && Partial(order, KeysOf(Shown(views, n), n), |views|, k)
    ensures (forall i :: 0 <= i < |order| ==> order[i] < n) && Ordered(order, views, n)
  {
    hide KeyLe, View.Ok, View.Len, ViewsOk;
    var keys := Pick(KeysOf(Shown(views, n), n), order);
    forall i, j | 0 <= i < j < |order| ensures KeyLe(KeyOf(views, n, order[i]), KeyOf(views, n, order[j])) {
      assert keys[i] == KeyOf(views, n, order[i]) && keys[j] == KeyOf(views, n, order[j]);
    }
  }

  /** When all rows have been placed, any two rows can be compared. */
  lemma {:induction false} AllComparableIsSortable(order: seq<nat>, views: seq<View>, n: nat)
    requires ViewsOk(views, n) && Permutation(order, n) && (forall i :: 0 <= i < |order| ==> order[i] < n)
    requires AllComparable(order, views, n)
    ensures Sortable(views, n)
  {
    hide Comparable, ViewsOk;
    forall a, b | 0 <= a < b < n ensures Comparable(views, n, a, b) {
      assert a in Iota(n) && b in Iota(n) by { assert Iota(n)[a] == a && Iota(n)[b] == b; }
      assert a in multiset(order) && b in multiset(order);
      var i :| 0 <= i < |order| && order[i] == a;
      var j :| 0 <= j < |order| && order[j] == b;
      if j < i { ComparableEitherWay(views, n, b, a); }
    }
  }

  lemma {:induction false} AnswerIs(views: seq<View>, n: nat, a: nat, b: nat)
    requires ViewsOk(views, n) && a < n && b < n
    ensures Answer(views, n, a, b).Some? <==> Comparable(views, n, a, b)
    ensures Answer(views, n, a, b).Some? ==> Answer(views, n, a, b).value == CompareKeys(KeyOf(views, n, a), KeyOf(views, n, b))
    ensures KeyLe(KeyOf(views, n, a), KeyOf(views, n, b)) <==> !CompareKeys(KeyOf(views, n, a), KeyOf(views, n, b)).Greater?
  {
    hide CompareKeys, Comparable;
    KeyLeIsExact(KeyOf(views, n, a), KeyOf(views, n, b));
  }

  /** Where row `k` goes among sorted rows; `None`: a comparison aborted. */
  method FindSlot(views: seq<View>, n: nat, order: seq<nat>, k: nat) returns (p: Option<nat>)
    requires views != [] && ViewsOk(views, n) && k < n && forall i :: 0 <= i < |order| ==> order[i] < n
    ensures p.Some? ==> p.value <= |order| && Slot(order, views, n, k, p.value)
    ensures p.None? ==> exists i :: 0 <= i < |order| && !Comparable(views, n, order[i], k)
  {
    hide CompareKeys, KeyLe, Compare, Covers, TableOrder, Comparable, ViewsOk, KeyOf, Answer;
    var cmp := TableOrder(views);
    var q := 0;
    while q < |order|
      invariant 0 <= q <= |order|
      invariant forall i :: 0 <= i < q ==> Comparable(views, n, order[i], k)
      invariant forall i :: 0 <= i < q ==> KeyLe(KeyOf(views, n, order[i]), KeyOf(views, n, k))
    {
      DispatchIsLexicographic(views, n, order[q], k);
      AnswerIs(views, n, order[q], k);
      var c := Compare(cmp, n, order[q], k);
      if c.None? { return None; }
      if c.value.Greater? { return Some(q); }
      q := q + 1;
    }
    p := Some(q);
  }

  /** Rows that are arranged by one column of numbers without nulls ascend. */
  lemma {:induction false} NumbersAscend(order: seq<nat>, column: seq<Cell>, values: seq<int>)
    requires |values| == |column| && forall i :: 0 <= i < |column| ==> column[i] == Some(Num(values[i]))
    requires Tall([column], |column|) && Arranges(order, [column], |column|)
    ensures forall i, j :: 0 <= i < j < |order| ==> values[order[i]] <= values[order[j]]
  {
    hide Permutation;
    var keys := Pick(KeysOf([column], |column|), order);
    forall i, j | 0 <= i < j < |order| ensures values[order[i]] <= values[order[j]] {
      assert KeyLe(keys[i], keys[j]);
      assert keys[i] == [Some(Num(values[order[i]]))] && keys[j] == [Some(Num(values[order[j]]))];
    }
  }

  /** Sorts row indexes by key columns if the table can be sorted, and aborts otherwise. How ties are broken is not part of
      the contract. */
  method SortTableToIndexes(views: seq<View>, n: nat) returns (r: Option<seq<nat>>)
    requires views != [] && ViewsOk(views, n)
    ensures r.Some? <==> Sortable(views, n)
    ensures r.Some? ==> Arranges(r.value, Shown(views, n), n)
  {
    hide Placing, Slot, ViewsOk, Comparable, Sortable, Arranges;
    var order: seq<nat> := [];
    PlacingStart(views, n);
    for k := 0 to n
      invariant Placing(order, views, n, k)
    {
      PlacingBounds(order, views, n, k);
      var p := FindSlot(views, n, order, k);
      if p.None? {
        NotSortable(order, views, n, k);
        return None;
      }
      PlacingGrows(order, views, n, k, p.value);
      order := Insert(order, k, p.value);
    }
    PlacingDone(order, views, n);
    r := Some(order);
  }

  /** The rows below `k` are sorted, and any two of them can be compared. */
  ghost predicate Placing(order: seq<nat>, views: seq<View>, n: nat, k: nat)
    requires ViewsOk(views, n)
  {
    && Partial(order, KeysOf(Shown(views, n), n), |views|, k) && (forall i :: 0 <= i < |order| ==> order[i] < n)
    && AllComparable(order, views, n)
  }

  lemma {:induction false} PlacingStart(views: seq<View>, n: nat)
    requires ViewsOk(views, n)
    ensures Placing([], views, n, 0)
  {
  }

  lemma {:induction false} PlacingBounds(order: seq<nat>, views: seq<View>, n: nat, k: nat)
    requires ViewsOk(views, n) && Placing(order, views, n, k) && k <= n
    ensures |order| == k && (forall i :: 0 <= i < |order| ==> order[i] < k)
  {
    hide AllComparable, ViewsOk, Partial;
    PartialBounds(order, KeysOf(Shown(views, n), n), |views|, k);
  }

  lemma {:induction false} NotSortable(order: seq<nat>, views: seq<View>, n: nat, k: nat)
    requires ViewsOk(views, n) && k < n && (forall i :: 0 <= i < |order| ==> order[i] < k)
    requires exists i :: 0 <= i < |order| && !Comparable(views, n, order[i], k)
    ensures !Sortable(views, n)
  {
    hide Comparable, ViewsOk;
  }

  lemma {:induction false} PlacingGrows(order: seq<nat>, views: seq<View>, n: nat, k: nat, p: nat)
    requires ViewsOk(views, n) && k < n && p <= |order| && (forall i :: 0 <= i < |order| ==> order[i] < n)
    requires Placing(order, views, n, k) && Slot(order, views, n, k, p)
    ensures Placing(Insert(order, k, p), views, n, k + 1)
  {
    hide CompareKeys, KeyLe, Partial, Comparable, ViewsOk, Sorted, AllComparable, Ordered, Slot;
    PartialOrdered(order, views, n, k);
    AllComparableGrows(order, views, n, k, p);
    SlotKeys(order, views, n, k, p);
    PartialBounds(order, KeysOf(Shown(views, n), n), |views|, k);
    PartialGrows(order, KeysOf(Shown(views, n), n), |views|, k, p);
  }

  lemma {:induction false} PlacingDone(order: seq<nat>, views: seq<View>, n: nat)
    requires ViewsOk(views, n) && Placing(order, views, n, n)
    ensures Sortable(views, n) && Arranges(order, Shown(views, n), n)
  {
    hide Partial, Comparable, ViewsOk, Sorted, AllComparable, Sortable;
    PartialDone(order, Shown(views, n), n);
    AllComparableIsSortable(order, views, n);
  }

  lemma {:induction false} SlotKeys(order: seq<nat>, views: seq<View>, n: nat, k: nat, p: nat)
    requires ViewsOk(views, n) && k < n && p <= |order| && (forall i :: 0 <= i < |order| ==> order[i] < n)
    requires Slot(order, views, n, k, p)
    ensures var keys := KeysOf(Shown(views, n), n);
            && (forall i :: 0 <= i < p ==> KeyLe(keys[order[i]], keys[k]))
            && (p < |order| ==> CompareKeys(keys[order[p]], keys[k]).Greater?)
  {
    hide KeyLe, CompareKeys, Comparable, View.Ok, View.Len, ViewsOk;
  }

  lemma {:induction false} PartialBounds(order: seq<nat>, keys: seq<Key>, width: nat, k: nat)
    requires Partial(order, keys, width, k)
    ensures |order| == k <= |keys| && forall i :: 0 <= i < |order| ==> order[i] < k
  {
    PermutationBounds(order, k);
  }

  lemma {:induction false} PartialDone(order: seq<nat>, cols: seq<seq<Cell>>, n: nat)
    requires Tall(cols, n) && Partial(order, KeysOf(cols, n), |cols|, n)
    ensures Arranges(order, cols, n)
  {
  }

  lemma {:induction false} Inserted(keys: seq<Key>, order: seq<nat>, k: nat, p: nat)
    requires k < |keys| && p <= |order| && forall i :: 0 <= i < |order| ==> order[i] < |keys|
    ensures var s := order[..p] + [k] + order[p..];
            && (forall i :: 0 <= i < |s| ==> s[i] < |keys|)
            && Pick(keys, s) == Pick(keys, order)[..p] + [keys[k]] + Pick(keys, order)[p..]
            && multiset(s) == multiset(order) + multiset{k}
            && multiset(Iota(k + 1)) == multiset(Iota(k)) + multiset{k}
  {
    assert order == order[..p] + order[p..];
    assert Iota(k + 1) == Iota(k) + [k];
  }
}
