/** Row comparison and index sorting (crates/array/src/sort). */
module SortOrder {
  import Bits
  import Columns
  import opened Options

  /** A present value of a column: a number (or boolean), or a byte string. */
  datatype Value = Num(n: int) | Items(items: seq<int>)

  type Cell = Option<Value>

  type Key = seq<Cell>

  datatype Ordering = Less | Equal | Greater

  function Flip(o: Ordering): Ordering {
    match o case Less => Greater case Equal => Equal case Greater => Less
  }

  function CompareInts(a: int, b: int): Ordering {
    if a < b then Less else if a == b then Equal else Greater
  }

  function CompareItems(a: seq<int>, b: seq<int>): Ordering {
    if a == [] then (if b == [] then Equal else Less)
    else if b == [] then Greater
    else if a[0] != b[0] then CompareInts(a[0], b[0])
    else CompareItems(a[1..], b[1..])
  }

  function CompareValues(a: Value, b: Value): Ordering {
    match (a, b)
    case (Num(x), Num(y)) => CompareInts(x, y)
    case (Items(x), Items(y)) => CompareItems(x, y)
    case (Num(_), Items(_)) => Less
    case (Items(_), Num(_)) => Greater
  }

  /** Nulls come last. */
  function CompareCells(a: Cell, b: Cell): Ordering {
    match (a, b)
    case (Some(x), Some(y)) => CompareValues(x, y)
    case (Some(_), None) => Less
    case (None, Some(_)) => Greater
    case (None, None) => Equal
  }

  /** The lexicographic order of equally long keys. */
  function CompareKeys(a: Key, b: Key): Ordering
    requires |a| == |b|
  {
    if a == [] then Equal
    else if CompareCells(a[0], b[0]).Equal? then CompareKeys(a[1..], b[1..])
    else CompareCells(a[0], b[0])
  }

  // ---- the same order, without the comparators ----

  /** `a` ends at `k` or is smaller there, and agrees with `b` up to it. */
  ghost predicate SmallerAt(a: seq<int>, b: seq<int>, k: nat) {
    && k <= |a| && k < |b| && (forall j :: 0 <= j < k ==> a[j] == b[j])
    && (k < |a| ==> a[k] < b[k])
  }

  /** A proper prefix, or smaller where they first differ. */
  ghost predicate ItemsBefore(a: seq<int>, b: seq<int>) {
    exists k: nat :: SmallerAt(a, b, k)
  }

  /** Nulls come last; numbers and byte strings ascend. One column never holds both. */
  ghost predicate CellBefore(a: Cell, b: Cell) {
    a.Some? &&
    match b
    case None => true
    case Some(Num(n)) => a.value.Num? && a.value.n < n
    case Some(Items(items)) => a.value.Num? || ItemsBefore(a.value.items, items)
  }

  /** The first cell in which the keys differ is smaller. */
  ghost predicate KeyBefore(a: Key, b: Key)
    requires |a| == |b|
  {
    exists k :: 0 <= k < |a| && (forall j :: 0 <= j < k ==> a[j] == b[j]) && CellBefore(a[k], b[k])
  }

  ghost predicate KeyLe(a: Key, b: Key)
    requires |a| == |b|
  {
    a == b || KeyBefore(a, b)
  }

  lemma {:induction false} ItemsLess(a: seq<int>, b: seq<int>)
    ensures CompareItems(a, b).Less? <==> ItemsBefore(a, b)
  {
    if a != [] && b != [] && a[0] == b[0] {
      ItemsLess(a[1..], b[1..]);
      ItemsStep(a, b);
    } else {
      ItemsStart(a, b);
    }
  }

  lemma {:induction false} ItemsStart(a: seq<int>, b: seq<int>)
    requires a == [] || b == [] || a[0] != b[0]
    ensures ItemsBefore(a, b) <==> b != [] && (a == [] || a[0] < b[0])
  {
    if b != [] && (a == [] || a[0] < b[0]) { assert SmallerAt(a, b, 0); }
  }

  lemma {:induction false} ItemsStep(a: seq<int>, b: seq<int>)
    requires a != [] && b != [] && a[0] == b[0]
    ensures ItemsBefore(a, b) <==> ItemsBefore(a[1..], b[1..])
  {
    if k: nat :| SmallerAt(a[1..], b[1..], k) { assert SmallerAt(a, b, k + 1); }
    if k: nat :| SmallerAt(a, b, k) { assert SmallerAt(a[1..], b[1..], k - 1); }
  }

  lemma {:induction false} CellsLess(a: Cell, b: Cell)
    ensures CompareCells(a, b).Less? <==> CellBefore(a, b)
  {
    if a.Some? && b.Some? && a.value.Items? && b.value.Items? { ItemsLess(a.value.items, b.value.items); }
  }

  lemma {:induction false} KeysLess(a: Key, b: Key)
    requires |a| == |b|
    ensures CompareKeys(a, b).Less? <==> KeyBefore(a, b)
  {
    if a != [] {
      CellsLess(a[0], b[0]);
      CellsTotal(a[0], b[0]);
      hide CompareCells, CellBefore, KeyBefore;
      KeysLess(a[1..], b[1..]);
      KeyStep(a, b);
    }
  }

  lemma {:induction false} KeyStep(a: Key, b: Key)
    requires |a| == |b| > 0
    ensures KeyBefore(a, b) <==> CellBefore(a[0], b[0]) || (a[0] == b[0] && KeyBefore(a[1..], b[1..]))
  {
    hide CellBefore;
    var x, y := a[1..], b[1..];
    if a[0] == b[0] && KeyBefore(x, y) {
      var k :| 0 <= k < |x| && (forall j :: 0 <= j < k ==> x[j] == y[j]) && CellBefore(x[k], y[k]);
      forall j | 0 <= j < k + 1 ensures a[j] == b[j] {
        if j > 0 { assert x[j - 1] == y[j - 1]; }
      }
      assert x[k] == a[k + 1] && y[k] == b[k + 1];
    }
    if KeyBefore(a, b) {
      var k :| 0 <= k < |a| && (forall j :: 0 <= j < k ==> a[j] == b[j]) && CellBefore(a[k], b[k]);
      if k > 0 {
        forall j | 0 <= j < k - 1 ensures x[j] == y[j] { assert a[j + 1] == b[j + 1]; }
        assert x[k - 1] == a[k] && y[k - 1] == b[k];
      }
    }
  }

  /** The comparators compute the order. */
  lemma {:induction false} KeyLeIsExact(a: Key, b: Key)
    requires |a| == |b|
    ensures KeyLe(a, b) <==> !CompareKeys(a, b).Greater?
  {
    hide CompareKeys, KeyBefore;
    KeysTotal(a, b);
    KeysLess(a, b);
  }

  // ---- the lexicographic order is a total order ----

  lemma {:induction false} ItemsTotal(a: seq<int>, b: seq<int>)
    ensures CompareItems(b, a) == Flip(CompareItems(a, b))
    ensures CompareItems(a, b).Equal? <==> a == b
  {
    if a != [] && b != [] && a[0] == b[0] {
      ItemsTotal(a[1..], b[1..]);
      assert a == [a[0]] + a[1..] && b == [b[0]] + b[1..];
    }
  }

  lemma {:induction false} ItemsTransitive(a: seq<int>, b: seq<int>, c: seq<int>)
    requires CompareItems(a, b).Less? && CompareItems(b, c).Less?
    ensures CompareItems(a, c).Less?
  {
    if a != [] && b != [] && c != [] && a[0] == b[0] == c[0] { ItemsTransitive(a[1..], b[1..], c[1..]); }
  }

  lemma {:induction false} CellsTotal(a: Cell, b: Cell)
    ensures CompareCells(b, a) == Flip(CompareCells(a, b))
    ensures CompareCells(a, b).Equal? <==> a == b
  {
    if a.Some? && b.Some? && a.value.Items? && b.value.Items? { ItemsTotal(a.value.items, b.value.items); }
  }

  lemma {:induction false} CellsTransitive(a: Cell, b: Cell, c: Cell)
    requires CompareCells(a, b).Less? && CompareCells(b, c).Less?
    ensures CompareCells(a, c).Less?
  {
    if a.Some? && b.Some? && c.Some? && a.value.Items? && b.value.Items? && c.value.Items? {
      ItemsTransitive(a.value.items, b.value.items, c.value.items);
    }
  }

  lemma {:induction false} KeysTotal(a: Key, b: Key)
    requires |a| == |b|
    ensures CompareKeys(b, a) == Flip(CompareKeys(a, b))
    ensures CompareKeys(a, b).Equal? <==> a == b
  {
    if a != [] {
      CellsTotal(a[0], b[0]);
      KeysTotal(a[1..], b[1..]);
      assert a == [a[0]] + a[1..] && b == [b[0]] + b[1..];
    }
  }

  lemma {:induction false} KeysTransitive(a: Key, b: Key, c: Key)
    requires |a| == |b| == |c| && KeyLe(a, b) && KeyLe(b, c)
    ensures KeyLe(a, c)
  {
    hide KeyLe;
    KeyLeIsExact(a, b);
    KeyLeIsExact(b, c);
    KeyLeIsExact(a, c);
    if a != [] {
      CellsTotal(a[0], b[0]);
      CellsTotal(b[0], c[0]);
      CellsTotal(a[0], c[0]);
      if a[0] == b[0] && b[0] == c[0] {
        KeyLeIsExact(a[1..], b[1..]);
        KeyLeIsExact(b[1..], c[1..]);
        KeyLeIsExact(a[1..], c[1..]);
        KeysTransitive(a[1..], b[1..], c[1..]);
      } else if a[0] != b[0] && b[0] != c[0] {
        CellsTransitive(a[0], b[0], c[0]);
      }
    }
  }

  // ---- key columns as they are viewed ----

  datatype Data = Plain(values: seq<Value>) | Flags(bits: Columns.Bitmask)

  /** A key column: its values and its null mask, if it has one. Bits may start inside a longer bit string. */
  datatype View = View(data: Data, mask: Option<Columns.Bitmask>) {
    function Len(): nat {
      match data case Plain(values) => |values| case Flags(bits) => bits.len
    }

    predicate Ok() {
      && (data.Flags? ==> data.bits.Ok())
      && (mask.Some? ==> mask.value.Ok() && mask.value.len == Len())
    }

    /** What row `i` holds. */
    function CellAt(i: nat): Cell
      requires Ok() && i < Len()
    {
      if mask.Some? && !mask.value.Bits()[i] then None
      else Some(match data case Plain(values) => values[i] case Flags(bits) => FlagValue(bits.Bits()[i]))
    }

    function Cells(): (r: seq<Cell>)
      requires Ok()
      ensures |r| == Len() && forall i :: 0 <= i < Len() ==> r[i] == CellAt(i)
    {
      seq(Len(), i requires 0 <= i < Len() => CellAt(i))
    }

    /** Rows `offset..offset + n` as a view. */
    function Sub(offset: nat, n: nat): View
      requires offset + n <= Len()
    {
      View(match data
           case Plain(values) => Plain(values[offset..offset + n])
           case Flags(bits) => Flags(Columns.SubMask(bits, offset, n)),
           if mask.Some? then Some(Columns.SubMask(mask.value, offset, n)) else None)
    }

    /** Every bit string starts at bit 0. */
    predicate AtStart() {
      (mask.Some? ==> mask.value.offset == 0) && (data.Flags? ==> data.bits.offset == 0)
    }
  }

  function FlagValue(flag: bool): Value {
    if flag then Num(1) else Num(0)
  }

  lemma {:induction false} FalseComesFirst()
    ensures CellBefore(Some(FlagValue(false)), Some(FlagValue(true)))
  {
  }

  lemma {:induction false} SubCells(v: View, offset: nat, n: nat)
    requires v.Ok() && offset + n <= v.Len()
    ensures v.Sub(offset, n).Ok() && v.Sub(offset, n).Len() == n
    ensures v.Sub(offset, n).Cells() == v.Cells()[offset..offset + n]
  {
    hide Bits.BitAt;
    var sub := v.Sub(offset, n);
    forall i | 0 <= i < n ensures sub.CellAt(i) == v.CellAt(offset + i) {}
  }

  // ---- the comparators that are built for a table ----

  datatype Order = Nullable(column: View) | IgnoreNulls(column: View) | Pair(head: Order, next: Order) | List(list: seq<Order>)

  /** Every comparator can be asked about rows below `n`. */
  predicate Covers(o: Order, n: nat) {
    match o
    case Nullable(v) => v.Ok() && n <= v.Len()
    case IgnoreNulls(v) => v.Ok() && n <= v.Len()
    case Pair(p, q) => Covers(p, n) && Covers(q, n)
    case List(l) => forall q :: q in l ==> Covers(q, n)
  }

  /** Whether a row is not null, read from the mask; `None` is the failed assertion of a single read. */
  function IsValid(v: View, i: nat): Option<bool>
    requires v.Ok()
  {
    if v.mask.None? then Some(true) else Columns.ReadBit(v.mask.value, i)
  }

  function Get(v: View, i: nat): Option<Value>
    requires v.Ok() && i < v.Len()
  {
    match v.data
    case Plain(values) => Some(values[i])
    case Flags(bits) =>
      var flag := Columns.ReadBit(bits, i);
      if flag.None? then None else Some(FlagValue(flag.value))
  }

  function CompareGot(v: View, a: nat, b: nat): Option<Ordering>
    requires v.Ok() && a < v.Len() && b < v.Len()
  {
    var (x, y) := (Get(v, a), Get(v, b));
    if x.None? || y.None? then None else Some(CompareValues(x.value, y.value))
  }

  function CompareNullable(v: View, a: nat, b: nat): Option<Ordering>
    requires v.Ok() && a < v.Len() && b < v.Len()
  {
    var (x, y) := (IsValid(v, a), IsValid(v, b));
    if x.None? || y.None? then None
    else if x.value && y.value then CompareGot(v, a, b)
    else Some(if x.value then Less else if y.value then Greater else Equal)
  }

  /** Compares two rows; `None`: a bit could not be read and the comparison aborts. */
  function Compare(o: Order, n: nat, a: nat, b: nat): Option<Ordering>
    requires Covers(o, n) && a < n && b < n
    decreases o, 0
  {
    match o
    case Nullable(v) => CompareNullable(v, a, b)
    case IgnoreNulls(v) => CompareGot(v, a, b)
    case Pair(p, q) => if Compare(p, n, a, b) == Some(Equal) then Compare(q, n, a, b) else Compare(p, n, a, b)
    case List(l) => CompareList(l, n, a, b)
  }

  function CompareList(l: seq<Order>, n: nat, a: nat, b: nat): Option<Ordering>
    requires (forall q :: q in l ==> Covers(q, n)) && a < n && b < n
    decreases l, 1
  {
    if l == [] then Some(Equal)
    else if Compare(l[0], n, a, b) == Some(Equal) then CompareList(l[1..], n, a, b)
    else Compare(l[0], n, a, b)
  }

  /** Which comparator a column gets depends on there being a mask, not on there being a null. */
  function ColumnOrder(v: View): Order {
    if v.mask.Some? then Nullable(v) else IgnoreNulls(v)
  }

  function ColumnOrders(views: seq<View>): (r: seq<Order>)
    ensures |r| == |views| && forall i :: 0 <= i < |views| ==> r[i] == ColumnOrder(views[i])
  {
    seq(|views|, i requires 0 <= i < |views| => ColumnOrder(views[i]))
  }

  /** One column, two columns and more take three different routes. */
  function TableOrder(views: seq<View>): Order
    requires views != []
  {
    if |views| == 1 then ColumnOrder(views[0])
    else if |views| == 2 then Pair(ColumnOrder(views[0]), ColumnOrder(views[1]))
    else Pair(ColumnOrder(views[0]), List(ColumnOrders(views[1..])))
  }

  ghost predicate Tall(cols: seq<seq<Cell>>, n: nat) {
    forall c :: c in cols ==> |c| == n
  }

  /** Row `i` of the key columns. */
  function KeyAt(cols: seq<seq<Cell>>, n: nat, i: nat): (r: Key)
    requires Tall(cols, n) && i < n
    ensures |r| == |cols| && forall k :: 0 <= k < |cols| ==> r[k] == cols[k][i]
  {
    seq(|cols|, k requires 0 <= k < |cols| => cols[k][i])
  }

  predicate ViewsOk(views: seq<View>, n: nat) {
    forall k :: 0 <= k < |views| ==> views[k].Ok() && views[k].Len() == n
  }

  /** The columns that the views show. */
  function Shown(views: seq<View>, n: nat): (r: seq<seq<Cell>>)
    requires ViewsOk(views, n)
    ensures |r| == |views| && Tall(r, n) && forall k :: 0 <= k < |views| ==> r[k] == views[k].Cells()
  {
    seq(|views|, k requires 0 <= k < |views| => views[k].Cells())
  }

  // ---- which rows can be compared ----

  /** A single read reaches bit `i` only if the offset and `i` together stay below the length. */
  predicate Reaches(m: Columns.Bitmask, i: nat) {
    m.offset + i < m.len
  }

  /** A column can be read for a comparison of two rows. */
  predicate Legible(v: View, a: nat, b: nat)
    requires v.Ok() && a < v.Len() && b < v.Len()
  {
    && (v.mask.Some? ==> Reaches(v.mask.value, a) && Reaches(v.mask.value, b))
    && (v.data.Flags? && v.CellAt(a).Some? && v.CellAt(b).Some? ==> Reaches(v.data.bits, a) && Reaches(v.data.bits, b))
  }

  /** Every key column is legible up to the first one in which the rows differ. */
  ghost predicate Comparable(views: seq<View>, n: nat, a: nat, b: nat)
    requires ViewsOk(views, n) && a < n && b < n
  {
    forall k :: 0 <= k < |views| && TiesBefore(views, n, a, b, k) ==> Legible(views[k], a, b)
  }

  ghost predicate TiesBefore(views: seq<View>, n: nat, a: nat, b: nat, k: nat)
    requires ViewsOk(views, n) && a < n && b < n && k <= |views|
  {
    forall j :: 0 <= j < k ==> views[j].CellAt(a) == views[j].CellAt(b)
  }

  lemma {:induction false} ComparableUnfolds(views: seq<View>, n: nat, a: nat, b: nat)
    requires ViewsOk(views, n) && a < n && b < n && views != []
    ensures ViewsOk(views[1..], n)
    ensures Comparable(views, n, a, b)
       <==> && Legible(views[0], a, b)
            && (views[0].CellAt(a) == views[0].CellAt(b) ==> Comparable(views[1..], n, a, b))
  {
    hide View.Ok, View.Len, View.CellAt, Legible;
    assert TiesBefore(views, n, a, b, 0);
    if views[0].CellAt(a) == views[0].CellAt(b) {
      forall k | 0 <= k < |views[1..]| ensures TiesBefore(views[1..], n, a, b, k) <==> TiesBefore(views, n, a, b, k + 1) {
        TiesShift(views, n, a, b, k);
      }
      forall k | 0 < k < |views| ensures TiesBefore(views[1..], n, a, b, k - 1) <==> TiesBefore(views, n, a, b, k) {
        TiesShift(views, n, a, b, k - 1);
      }
    } else {
      forall k | 0 < k < |views| ensures !TiesBefore(views, n, a, b, k) {
        assert views[0].CellAt(a) != views[0].CellAt(b);
      }
    }
  }

  lemma {:induction false} TiesShift(views: seq<View>, n: nat, a: nat, b: nat, k: nat)
    requires ViewsOk(views, n) && a < n && b < n && k < |views| && ViewsOk(views[1..], n)
    requires views[0].CellAt(a) == views[0].CellAt(b)
    ensures TiesBefore(views[1..], n, a, b, k) <==> TiesBefore(views, n, a, b, k + 1)
  {
    hide View.Ok, View.Len, View.CellAt;
    if TiesBefore(views[1..], n, a, b, k) {
      forall j | 0 <= j < k + 1 ensures views[j].CellAt(a) == views[j].CellAt(b) {
        if j > 0 { assert views[1..][j - 1] == views[j]; }
      }
    }
    if TiesBefore(views, n, a, b, k + 1) {
      forall j | 0 <= j < k ensures views[1..][j].CellAt(a) == views[1..][j].CellAt(b) {
        assert views[1..][j] == views[j + 1];
      }
    }
  }

  /** What a comparison of two rows should answer. */
  ghost function Answer(views: seq<View>, n: nat, a: nat, b: nat): Option<Ordering>
    requires ViewsOk(views, n) && a < n && b < n
  {
    if Comparable(views, n, a, b) then Some(CompareKeys(KeyAt(Shown(views, n), n, a), KeyAt(Shown(views, n), n, b))) else None
  }

  lemma {:induction false} ColumnOrderIsExact(v: View, n: nat, a: nat, b: nat)
    requires v.Ok() && v.Len() == n && a < n && b < n
    ensures Covers(ColumnOrder(v), n)
    ensures Compare(ColumnOrder(v), n, a, b)
         == if Legible(v, a, b) then Some(CompareCells(v.CellAt(a), v.CellAt(b))) else None
  {
    hide Bits.BitAt;
  }

  /** The answer is decided by the first column, or else by the others. */
  lemma {:induction false} AnswerUnfolds(views: seq<View>, n: nat, a: nat, b: nat)
    requires ViewsOk(views, n) && a < n && b < n && views != []
    ensures ViewsOk(views[1..], n)
    ensures Answer(views, n, a, b)
         == if !Legible(views[0], a, b) then None
            else if views[0].CellAt(a) == views[0].CellAt(b) then Answer(views[1..], n, a, b)
            else Some(CompareCells(views[0].CellAt(a), views[0].CellAt(b)))
  {
    hide View.Ok, View.Len, View.CellAt, Legible, Comparable, CompareCells;
    ComparableUnfolds(views, n, a, b);
    var ka, kb := KeyAt(Shown(views, n), n, a), KeyAt(Shown(views, n), n, b);
    assert ka[1..] == KeyAt(Shown(views[1..], n), n, a) && kb[1..] == KeyAt(Shown(views[1..], n), n, b);
    assert ka[0] == views[0].CellAt(a) && kb[0] == views[0].CellAt(b);
    CellsTotal(ka[0], kb[0]);
  }

  lemma {:induction false} ListIsLexicographic(views: seq<View>, n: nat, a: nat, b: nat)
    requires ViewsOk(views, n) && a < n && b < n
    ensures forall q :: q in ColumnOrders(views) ==> Covers(q, n)
    ensures CompareList(ColumnOrders(views), n, a, b) == Answer(views, n, a, b)
  {
    if views == [] {
      assert Comparable(views, n, a, b);
    } else {
      hide View.Ok, View.Len, View.CellAt, Legible, Comparable, CompareCells, Answer, ColumnOrder, Compare, Covers;
      AnswerUnfolds(views, n, a, b);
      ColumnOrderIsExact(views[0], n, a, b);
      CellsTotal(views[0].CellAt(a), views[0].CellAt(b));
      ListIsLexicographic(views[1..], n, a, b);
      assert ColumnOrders(views)[1..] == ColumnOrders(views[1..]);
      assert ColumnOrders(views) == [ColumnOrder(views[0])] + ColumnOrders(views[1..]);
    }
  }

  /** Whatever route is taken: rows that can be compared are compared lexicographically with nulls last, and comparing any
      others aborts. */
  lemma {:induction false} DispatchIsLexicographic(views: seq<View>, n: nat, a: nat, b: nat)
    requires views != [] && ViewsOk(views, n) && a < n && b < n
    ensures Covers(TableOrder(views), n)
    ensures Compare(TableOrder(views), n, a, b) == Answer(views, n, a, b)
  {
    hide View.Ok, View.Len, View.CellAt, Legible, Comparable, CompareCells, Answer, ColumnOrder;
    AnswerUnfolds(views, n, a, b);
    ColumnOrderIsExact(views[0], n, a, b);
    CellsTotal(views[0].CellAt(a), views[0].CellAt(b));
    ListIsLexicographic(views[1..], n, a, b);
    if |views| == 2 {
      OneMore(views[1..], n, a, b);
    } else if |views| == 1 {
      assert views[1..] == [];
      NothingToCompare(n, a, b);
    }
  }

  lemma {:induction false} NothingToCompare(n: nat, a: nat, b: nat)
    requires a < n && b < n
    ensures Answer([], n, a, b) == Some(Equal)
  {
  }

  lemma {:induction false} OneMore(views: seq<View>, n: nat, a: nat, b: nat)
    requires |views| == 1 && ViewsOk(views, n) && a < n && b < n
    ensures Covers(ColumnOrder(views[0]), n) && Compare(ColumnOrder(views[0]), n, a, b) == Answer(views, n, a, b)
  {
    hide View.Ok, View.Len, View.CellAt, Legible, Comparable, CompareCells, Answer, ColumnOrder;
    AnswerUnfolds(views, n, a, b);
    ColumnOrderIsExact(views[0], n, a, b);
    CellsTotal(views[0].CellAt(a), views[0].CellAt(b));
    assert views[1..] == [];
    NothingToCompare(n, a, b);
  }
}
