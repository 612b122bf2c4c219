/** The diagonal array `DiagArray2<T>`: a logical rows x cols matrix that
    stores only its leading diagonal, `min(rows, cols)` elements, in a linear
    store. Off-diagonal elements read as zero and cannot be written.

    The element type's zero `T(0)` is passed in as `zero`; the static
    default-constructed `T` that the proxies fall back on is zero-initialised,
    so it is the same value.
 */
module DiagArrays {
  import opened Outcomes

  const RangeErrorMessage := "range error in DiagArray2"
  const OffDiagonalMessage := "invalid assignment to off-diagonal in diagonal array"

  function Min(a: nat, b: nat): nat
  {
    if a < b then a else b
  }

  datatype DiagArray2<T> = DiagArray2(nr: nat, nc: nat, store: seq<T>)
  {
    /** The store holds exactly the diagonal. */
    predicate Valid()
    {
      |store| == Min(nr, nc)
    }

    function Rows(): nat { nr }
    function Cols(): nat { nc }

    /** `dims`: the full logical shape, not the store's length. */
    function Dims(): (d: seq<nat>)
      ensures |d| == 2 && d[0] == Rows() && d[1] == Cols()
    {
      [nr, nc]
    }

    /** `length`: the number of stored (diagonal) elements. */
    function Length(): (n: nat)
      requires Valid()
      ensures n == Min(Rows(), Cols())
      ensures n <= Rows() && n <= Cols()
    {
      |store|
    }

    /** `nelem`/`numel`: the number of logical elements. */
    function Nelem(): (n: nat)
      ensures n == Rows() * Cols()
      ensures n == 0 <==> Rows() == 0 || Cols() == 0
      ensures Valid() ==> Length() <= n
    {
      nr * nc
    }

    /** `byte_size`: storage taken by the diagonal alone. */
    function ByteSize(elementSize: nat): (n: nat)
      requires Valid()
      ensures n == Min(Rows(), Cols()) * elementSize
    {
      |store| * elementSize
    }

    /** (r, c) lies inside the logical shape. */
    predicate InRange(r: int, c: int)
    {
      0 <= r < nr && 0 <= c < nc
    }
  }

  // ---------------------------------------------------------------------------
  // Constructors

  /** The default constructor: an empty 0 x 0 array. */
  function Empty<T>(): (a: DiagArray2<T>)
    ensures a.Valid() && a.Dims() == [0, 0] && a.Length() == 0
  {
    DiagArray2(0, 0, [])
  }

  /** `DiagArray2 (r, c)`: the store holds `min(r, c)` default-constructed elements. */
  function Sized<T>(r: nat, c: nat, default: T): (a: DiagArray2<T>)
    ensures a.Valid() && a.Dims() == [r, c]
    ensures a.Length() == Min(r, c)
  {
    DiagArray2(r, c, seq(Min(r, c), _ => default))
  }

  /** `DiagArray2 (r, c, val)`: every diagonal element is `val`. */
  function Filled<T>(r: nat, c: nat, val: T): (a: DiagArray2<T>)
    ensures a.Valid() && a.Dims() == [r, c]
    ensures forall i :: 0 <= i < a.Length() ==> a.store[i] == val
  {
    DiagArray2(r, c, seq(Min(r, c), _ => val))
  }

  /** `DiagArray2 (const Array<T>& a)`: the plain array is taken as the
      diagonal of a square array of side `|a|`; nothing checks that `a` was
      not meant as a dense matrix. */
  function FromArray<T>(a: seq<T>): (d: DiagArray2<T>)
    ensures d.Valid() && d.Dims() == [|a|, |a|]
    ensures d.store == a
  {
    DiagArray2(|a|, |a|, a)
  }

  /** The converting constructor: same shape, each diagonal element converted. */
  function Convert<U, T>(a: DiagArray2<U>, conv: U -> T): (d: DiagArray2<T>)
    requires a.Valid()
    ensures d.Valid() && d.Dims() == a.Dims()
    ensures forall i :: 0 <= i < |a.store| ==> d.store[i] == conv(a.store[i])
  {
    DiagArray2(a.nr, a.nc, seq(|a.store|, i requires 0 <= i < |a.store| => conv(a.store[i])))
  }

  // ---------------------------------------------------------------------------
  // Reading

  /** The const `elem`/`xelem`: the stored element on the diagonal, zero off
      it. Neither checks the range, so a diagonal position must lie in the store. */
  function Elem<T>(a: DiagArray2<T>, r: int, c: int, zero: T): (x: T)
    requires r == c ==> 0 <= r < |a.store|
    ensures r != c ==> x == zero
    ensures a.Valid() && a.InRange(r, c) ==> x == CheckedRead(a, r, c, zero).result
  {
    if r == c then a.store[r] else zero
  }

  /** The handle returned by the non-const `elem`, `checkelem` and
      `operator ()`; `bound` is false for the null handle returned after a
      range error. */
  datatype Proxy = Proxy(i: int, j: int, bound: bool)

  /** The non-const `elem`: an unchecked handle. */
  function ElemProxy<T>(a: DiagArray2<T>, r: int, c: int): (p: Proxy)
    ensures p.bound && p.i == r && p.j == c
    ensures a.InRange(r, c) ==> p == CheckElem(a, r, c).result
  {
    Proxy(r, c, true)
  }

  /** `checkelem`/`operator ()`: a range error for a position outside the
      logical shape, after which a null handle is returned. */
  function CheckElem<T>(a: DiagArray2<T>, r: int, c: int): (h: Handled<Proxy>)
    ensures h.result.i == r && h.result.j == c
    ensures h.raised == [] <==> a.InRange(r, c)
    ensures h.raised != [] ==> h.raised == [RangeErrorMessage]
    ensures h.result.bound <==> a.InRange(r, c)
  {
    if r < 0 || c < 0 || r >= a.nr || c >= a.nc then Handled([RangeErrorMessage], Proxy(r, c, false))
    else Handled([], Proxy(r, c, true))
  }

  /** Reading through a handle: the stored element for a bound handle on the
      diagonal, the default element otherwise. */
  function ProxyRead<T>(a: DiagArray2<T>, p: Proxy, zero: T): (x: T)
    requires p.bound && p.i == p.j ==> 0 <= p.i < |a.store|
    ensures p.bound && p.i == p.j ==> x == a.store[p.i]
    ensures !p.bound || p.i != p.j ==> x == zero
  {
    if p.bound && p.i == p.j then a.store[p.i] else zero
  }

  /** Assigning through a handle: on the diagonal only slot `i` changes (and a
      null handle changes nothing); off the diagonal the assignment is
      reported and the array is left as it was. */
  function ProxyAssign<T>(a: DiagArray2<T>, p: Proxy, val: T): (h: Handled<DiagArray2<T>>)
    requires p.bound && p.i == p.j ==> 0 <= p.i < |a.store|
    ensures h.result.Dims() == a.Dims() && |h.result.store| == |a.store|
    ensures h.raised == [] <==> p.i == p.j
    ensures h.raised != [] ==> h.raised == [OffDiagonalMessage] && h.result == a
    ensures !p.bound ==> h.result == a
    ensures p.bound && p.i == p.j ==>
              h.result.store[p.i] == val
              && forall k :: 0 <= k < |a.store| && k != p.i ==> h.result.store[k] == a.store[k]
  {
    if p.i == p.j then
      if p.bound then Handled([], a.(store := a.store[p.i := val])) else Handled([], a)
    else Handled([OffDiagonalMessage], a)
  }

  /** `a(r, c)` read through the checked accessor. */
  function CheckedRead<T>(a: DiagArray2<T>, r: int, c: int, zero: T): (h: Handled<T>)
    requires a.Valid()
    ensures h.raised == (if a.InRange(r, c) then [] else [RangeErrorMessage])
    ensures h.result == if a.InRange(r, c) && r == c then a.store[r] else zero
  {
    var p := CheckElem(a, r, c);
    Handled(p.raised, ProxyRead(a, p.result, zero))
  }

  /** `a(r, c) = val` through the checked accessor: a range error first if
      (r, c) is outside the shape, then the off-diagonal error if r != c. */
  function CheckedAssign<T>(a: DiagArray2<T>, r: int, c: int, val: T): (h: Handled<DiagArray2<T>>)
    requires a.Valid()
    ensures h.result.Valid() && h.result.Dims() == a.Dims()
    ensures h.raised == [] <==> a.InRange(r, c) && r == c
    ensures h.raised != [] ==> h.result == a
    ensures h.raised == [] ==> h.result.store == a.store[r := val]
  {
    var p := CheckElem(a, r, c);
    var w := ProxyAssign(a, p.result, val);
    Handled(p.raised + w.raised, w.result)
  }

  // ---------------------------------------------------------------------------
  // Properties

  /** `nelem` counts every logical position while `length` counts only the
      diagonal, so `length` never exceeds `nelem` and both vanish together. */
  lemma ShapeCounts<T>(a: DiagArray2<T>)
    requires a.Valid()
    ensures a.Nelem() == a.Rows() * a.Cols()
    ensures a.Length() <= a.Nelem()
    ensures a.Nelem() == 0 <==> a.Length() == 0
  {
    if a.nr > 0 && a.nc > 0 {
      var m := Min(a.nr, a.nc);
      assert m <= a.nr * a.nc by {
        if a.nr <= a.nc {
          assert a.nr * 1 <= a.nr * a.nc;
        } else {
          assert 1 * a.nc <= a.nr * a.nc;
        }
      }
    }
  }

  /** Every in-range off-diagonal position reads as zero, through both the
      const accessor and the checked proxy, without an error. */
  lemma OffDiagonalReadsZero<T>(a: DiagArray2<T>, r: int, c: int, zero: T)
    requires a.Valid() && a.InRange(r, c) && r != c
    ensures Elem(a, r, c, zero) == zero
    ensures CheckedRead(a, r, c, zero) == Handled([], zero)
  {
  }

  /** An in-range diagonal position reads its stored slot. */
  lemma DiagonalReadsStore<T>(a: DiagArray2<T>, i: int, zero: T)
    requires a.Valid() && a.InRange(i, i)
    ensures 0 <= i < a.Length()
    ensures Elem(a, i, i, zero) == a.store[i]
    ensures CheckedRead(a, i, i, zero) == Handled([], a.store[i])
  {
  }

  /** Writing an in-range off-diagonal position is an error, not a silent
      drop, and the array is unchanged. */
  lemma OffDiagonalWriteRejected<T>(a: DiagArray2<T>, r: int, c: int, val: T)
    requires a.Valid() && a.InRange(r, c) && r != c
    ensures CheckedAssign(a, r, c, val) == Handled([OffDiagonalMessage], a)
  {
  }

  /** The unchecked handle of the non-const `elem` reads what the const
      `elem` reads, writes a diagonal slot without any report, and is the
      handle `checkelem` returns whenever the position is in range. */
  lemma UncheckedHandle<T>(a: DiagArray2<T>, r: int, c: int, v: T, zero: T)
    requires a.Valid() && (r == c ==> 0 <= r < |a.store|)
    ensures ProxyRead(a, ElemProxy(a, r, c), zero) == Elem(a, r, c, zero)
    ensures r == c ==> ProxyAssign(a, ElemProxy(a, r, c), v) == Handled([], a.(store := a.store[r := v]))
    ensures r != c ==> ProxyAssign(a, ElemProxy(a, r, c), v) == Handled([OffDiagonalMessage], a)
    ensures a.InRange(r, c) ==> ElemProxy(a, r, c) == CheckElem(a, r, c).result
  {
  }

  /** Read after write: a diagonal write is seen at its own position and
      nowhere else. */
  lemma WriteThenRead<T>(a: DiagArray2<T>, i: int, val: T, r: int, c: int, zero: T)
    requires a.Valid() && a.InRange(i, i) && a.InRange(r, c)
    ensures CheckedAssign(a, i, i, val).raised == []
    ensures CheckedAssign(a, i, i, val).result.Valid()
    ensures CheckedAssign(a, i, i, val).result.Dims() == a.Dims()
    ensures Elem(CheckedAssign(a, i, i, val).result, r, c, zero)
            == if r == i && c == i then val else Elem(a, r, c, zero)
  {
    DiagonalReadsStore(a, i, zero);
  }

  /** Out of range, the checked read reports a range error and yields the
      default element, and a write changes nothing; an off-diagonal write
      also reports the off-diagonal error. */
  lemma OutOfRangeAccess<T>(a: DiagArray2<T>, r: int, c: int, val: T, zero: T)
    requires a.Valid() && !a.InRange(r, c)
    ensures CheckedRead(a, r, c, zero) == Handled([RangeErrorMessage], zero)
    ensures CheckedAssign(a, r, c, val).result == a
    ensures CheckedAssign(a, r, c, val).raised
            == if r == c then [RangeErrorMessage] else [RangeErrorMessage, OffDiagonalMessage]
  {
  }

  /** A filled array reads `val` on its diagonal and zero elsewhere. */
  lemma FilledReads<T>(r: nat, c: nat, val: T, i: int, j: int, zero: T)
    requires Filled(r, c, val).InRange(i, j)
    ensures Elem(Filled(r, c, val), i, j, zero) == if i == j then val else zero
  {
  }

  /** An array built from a plain array has that array as its diagonal. */
  lemma FromArrayReads<T>(a: seq<T>, i: int, j: int, zero: T)
    requires 0 <= i < |a| && 0 <= j < |a|
    ensures FromArray(a).InRange(i, j)
    ensures Elem(FromArray(a), i, j, zero) == if i == j then a[i] else zero
  {
  }

  /** Conversion commutes with reading on the diagonal, and maps zero to zero
      off it when the conversion does. */
  lemma ConvertReads<U, T>(a: DiagArray2<U>, conv: U -> T, r: int, c: int, zeroU: U, zeroT: T)
    requires a.Valid() && a.InRange(r, c) && conv(zeroU) == zeroT
    ensures Convert(a, conv).InRange(r, c)
    ensures Elem(Convert(a, conv), r, c, zeroT) == conv(Elem(a, r, c, zeroU))
  {
  }
}
