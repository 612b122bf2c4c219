/** Dimension-vector arithmetic of the array library: linear (column-major)
    index computation with validation, subscript recovery, the odometer
    increment, bounds and shape predicates, and counting ones.
 */
module ArrayUtil {
  import opened Outcomes

  /** A dimension vector: every array has at least two extents, none negative. */
  type DimVector = d: seq<nat> | |d| >= 2 witness [0, 0]

  /** Product of a sequence of extents; the empty product is 1. */
  function Product(d: seq<nat>): nat
  {
    if |d| == 0 then 1 else Product(d[..|d| - 1]) * d[|d| - 1]
  }

  /** Number of elements of an array of dimensions `d`. */
  function Numel(d: DimVector): nat
  {
    Product(d)
  }

  /** Column-major (first dimension fastest) offset of the subscripts `idx`
      in an array of extents `d`: the sum of `idx[k] * Product(d[..k])`. */
  function Offset(idx: seq<int>, d: seq<nat>): int
    requires |idx| == |d|
  {
    if |idx| == 0 then 0
    else Offset(idx[..|idx| - 1], d[..|d| - 1]) + idx[|idx| - 1] * Product(d[..|d| - 1])
  }

  /** Every subscript lies in its extent and there is one subscript per extent. */
  predicate InBounds(idx: seq<int>, d: seq<nat>)
  {
    |idx| == |d| && forall k :: 0 <= k < |idx| ==> 0 <= idx[k] < d[k]
  }

  function Ones(n: nat): (r: seq<nat>)
    ensures |r| == n && forall k :: 0 <= k < n ==> r[k] == 1
  {
    seq(n, _ => 1)
  }

  function Zeros(n: nat): (r: seq<int>)
    ensures |r| == n && forall k :: 0 <= k < n ==> r[k] == 0
  {
    seq(n, _ => 0)
  }

  // ---------------------------------------------------------------------------
  // Arithmetic facts about products and offsets

  lemma MulLeMono(a: int, b: int, c: int)
    requires a <= b && c >= 0
    ensures a * c <= b * c
  {
    assert b * c - a * c == (b - a) * c;
  }

  lemma ProductStep(d: seq<nat>, k: nat)
    requires k < |d|
    ensures Product(d[..k + 1]) == Product(d[..k]) * d[k]
  {
    assert d[..k + 1][..k] == d[..k];
  }

  lemma {:induction false} ProductAppend(a: seq<nat>, b: seq<nat>)
    ensures Product(a + b) == Product(a) * Product(b)
    decreases |b|
  {
    if |b| == 0 {
      assert a + b == a;
    } else {
      var b' := b[..|b| - 1];
      assert (a + b)[..|a + b| - 1] == a + b';
      ProductAppend(a, b');
      calc {
        Product(a + b);
        Product(a + b') * b[|b| - 1];
        Product(a) * Product(b') * b[|b| - 1];
        Product(a) * (Product(b') * b[|b| - 1]);
      }
    }
  }

  lemma {:induction false} ProductOfOnes(n: nat)
    ensures Product(Ones(n)) == 1
  {
    if n > 0 {
      assert Ones(n)[..n - 1] == Ones(n - 1);
      ProductOfOnes(n - 1);
    }
  }

  /** A non-empty array has no zero extent. */
  lemma {:induction false} ProductPositive(d: seq<nat>)
    requires Product(d) > 0
    ensures forall k :: 0 <= k < |d| ==> d[k] > 0
  {
    if |d| > 0 {
      var n := |d|;
      assert Product(d[..n - 1]) > 0 && d[n - 1] > 0;
      ProductPositive(d[..n - 1]);
      assert forall k :: 0 <= k < n - 1 ==> d[..n - 1][k] == d[k];
    }
  }

  lemma {:induction false} OffsetOfZeros(n: nat, d: seq<nat>)
    requires |d| == n
    ensures Offset(Zeros(n), d) == 0
  {
    if n > 0 {
      assert Zeros(n)[..n - 1] == Zeros(n - 1);
      OffsetOfZeros(n - 1, d[..n - 1]);
    }
  }

  /** Changing one subscript moves the offset by the change times that dimension's stride. */
  lemma {:induction false} OffsetUpdate(idx: seq<int>, d: seq<nat>, k: nat, x: int)
    requires |idx| == |d| && k < |idx|
    ensures Offset(idx[k := x], d) == Offset(idx, d) + (x - idx[k]) * Product(d[..k])
  {
    var n := |idx|;
    var upd := idx[k := x];
    if k == n - 1 {
      assert upd[..n - 1] == idx[..n - 1];
      var p := Product(d[..n - 1]);
      assert (x - idx[k]) * p == x * p - idx[k] * p;
    } else {
      assert upd[..n - 1] == idx[..n - 1][k := x];
      assert d[..n - 1][..k] == d[..k];
      OffsetUpdate(idx[..n - 1], d[..n - 1], k, x);
    }
  }

  /** In-bounds subscripts address an element of the array. */
  lemma {:induction false} OffsetBounds(idx: seq<int>, d: seq<nat>)
    requires InBounds(idx, d)
    ensures 0 <= Offset(idx, d) < Product(d)
  {
    if |idx| > 0 {
      var n := |idx|;
      assert forall k :: 0 <= k < n - 1 ==> idx[..n - 1][k] == idx[k] && d[..n - 1][k] == d[k];
      OffsetBounds(idx[..n - 1], d[..n - 1]);
      StrideBound(Offset(idx[..n - 1], d[..n - 1]), idx[n - 1], Product(d[..n - 1]), d[n - 1]);
    }
  }

  lemma StrideBound(o: int, x: int, p: int, m: int)
    requires 0 <= o < p && 0 <= x < m
    ensures 0 <= o + x * p < p * m
  {
    MulLeMono(x, m - 1, p);
    assert (m - 1) * p == m * p - p;
  }

  lemma DivUnique(x1: int, y1: int, x2: int, y2: int, p: int)
    requires 0 <= x1 < p && 0 <= x2 < p
    requires x1 + y1 * p == x2 + y2 * p
    ensures y1 == y2 && x1 == x2
  {
    if y1 < y2 {
      MulLeMono(y1 + 1, y2, p);
      assert false;
    } else if y2 < y1 {
      MulLeMono(y2 + 1, y1, p);
      assert false;
    }
  }

  /** Distinct in-bounds subscripts address distinct elements. */
  lemma {:induction false} OffsetInjective(a: seq<int>, b: seq<int>, d: seq<nat>)
    requires InBounds(a, d) && InBounds(b, d)
    requires Offset(a, d) == Offset(b, d)
    ensures a == b
  {
    if |d| > 0 {
      var n := |d|;
      assert forall k :: 0 <= k < n - 1 ==>
        a[..n - 1][k] == a[k] && b[..n - 1][k] == b[k] && d[..n - 1][k] == d[k];
      OffsetBounds(a[..n - 1], d[..n - 1]);
      OffsetBounds(b[..n - 1], d[..n - 1]);
      DivUnique(Offset(a[..n - 1], d[..n - 1]), a[n - 1],
                Offset(b[..n - 1], d[..n - 1]), b[n - 1], Product(d[..n - 1]));
      OffsetInjective(a[..n - 1], b[..n - 1], d[..n - 1]);
      assert a == a[..n - 1] + [a[n - 1]];
      assert b == b[..n - 1] + [b[n - 1]];
    }
  }

  // ---------------------------------------------------------------------------
  // index_in_bounds

  /** `index_in_bounds`: one subscript per dimension, each in range. */
  method IndexInBounds(raIdx: seq<int>, dims: DimVector) returns (b: bool)
    ensures b <==> InBounds(raIdx, dims)
    ensures b ==> 0 <= Offset(raIdx, dims) < Numel(dims)
  {
    if |raIdx| != |dims| {
      return false;
    }
    var i := 0;
    while i < |raIdx|
      invariant 0 <= i <= |raIdx|
      invariant forall k :: 0 <= k < i ==> 0 <= raIdx[k] < dims[k]
    {
      if raIdx[i] < 0 || raIdx[i] >= dims[i] {
        return false;
      }
      i := i + 1;
    }
    OffsetBounds(raIdx, dims);
    return true;
  }

  // ---------------------------------------------------------------------------
  // compute_index

  /** Errors raised while validating subscripts; `pos` is 1-based. */
  datatype IndexError =
    | InvalidIndex(value: int, nidx: nat, pos: nat)           // a negative subscript
    | OutOfRange(nidx: nat, pos: nat, ext: int, bound: nat)   // 1-based subscript `ext` exceeds `bound`

  /** `dim_vector::redim`: `n` extents, trailing extents folded into the last
      one when shrinking, padded with ones when growing. */
  function Redim(d: DimVector, n: nat): (r: seq<nat>)
    requires n >= 1
    ensures |r| == n
    ensures Product(r) == Numel(d)
    ensures forall k :: 0 <= k < n - 1 && k < |d| ==> r[k] == d[k]
    ensures n >= |d| ==> forall k :: |d| <= k < n ==> r[k] == 1
  {
    if n >= |d| then
      ProductAppend(d, Ones(n - |d|));
      ProductOfOnes(n - |d|);
      d + Ones(n - |d|)
    else
      assert d == d[..n - 1] + d[n - 1..];
      ProductAppend(d[..n - 1], d[n - 1..]);
      ProductAppend(d[..n - 1], [Product(d[n - 1..])]);
      assert [Product(d[n - 1..])][..0] == [];
      d[..n - 1] + [Product(d[n - 1..])]
  }

  /** The first subscript at position `k` or later that is negative or past its extent. */
  function FirstBadSubscript(idx: seq<int>, dv: seq<nat>, k: nat): (e: Option<IndexError>)
    requires |idx| == |dv| && k <= |idx|
    ensures e.None? <==> forall j :: k <= j < |idx| ==> 0 <= idx[j] < dv[j]
    ensures e.Some? ==> k < e.value.pos <= |idx| && e.value.nidx == |idx|
    ensures e.Some? ==> forall j :: k <= j < e.value.pos - 1 ==> 0 <= idx[j] < dv[j]
    ensures e.Some? ==> (e.value.InvalidIndex? <==> idx[e.value.pos - 1] < 0)
    ensures e.Some? && e.value.OutOfRange? ==> idx[e.value.pos - 1] >= dv[e.value.pos - 1]
    decreases |idx| - k
  {
    if k == |idx| then None
    else if idx[k] < 0 then Some(InvalidIndex(idx[k], |idx|, k + 1))
    else if idx[k] >= dv[k] then Some(OutOfRange(|idx|, k + 1, idx[k] + 1, dv[k]))
    else FirstBadSubscript(idx, dv, k + 1)
  }

  /** `compute_index (ra_idx, dims)`: validate the subscripts against the
      dimensions re-shaped to as many extents as there are subscripts, then
      return the column-major offset. */
  function ComputeIndex(raIdx: seq<int>, dims: DimVector): (r: Result<int, IndexError>)
    requires |raIdx| >= 1
    ensures r.Ok? <==> InBounds(raIdx, Redim(dims, |raIdx|))
    ensures r.Ok? ==> 0 <= r.value < Numel(dims)
    ensures r.Ok? ==> r.value == Offset(raIdx, Redim(dims, |raIdx|))
    ensures r.Ok? && |raIdx| == |dims| ==> r.value == Offset(raIdx, dims)
    ensures r.Err? ==> r.error.nidx == |raIdx| && 0 < r.error.pos <= |raIdx|
    ensures r.Err? ==> forall j :: 0 <= j < r.error.pos - 1 ==> 0 <= raIdx[j] < Redim(dims, |raIdx|)[j]
    ensures r.Err? ==> !(0 <= raIdx[r.error.pos - 1] < Redim(dims, |raIdx|)[r.error.pos - 1])
    ensures r.Err? ==> (r.error.InvalidIndex? <==> raIdx[r.error.pos - 1] < 0)
  {
    var dv := Redim(dims, |raIdx|);
    match FirstBadSubscript(raIdx, dv, 0)
    case Some(e) => Err(e)
    case None =>
      OffsetBounds(raIdx, dv);
      assert |raIdx| == |dims| ==> dv == dims;
      Ok(Offset(raIdx, dv))
  }

  /** `compute_index (n, dims)`: a single linear subscript. */
  function ComputeIndex1(n: int, dims: DimVector): (r: Result<int, IndexError>)
    ensures r.Ok? <==> 0 <= n < Numel(dims)
    ensures r.Ok? ==> r.value == n
  {
    if n < 0 then Err(InvalidIndex(n, 1, 1))
    else if n >= Numel(dims) then Err(OutOfRange(1, 1, n + 1, Numel(dims)))
    else Ok(n)
  }

  /** `compute_index (i, j, dims)`: the column subscript ranges over all
      trailing dimensions folded together. Both signs are checked before
      either range. */
  function ComputeIndex2(i: int, j: int, dims: DimVector): (r: Result<int, IndexError>)
    ensures r.Ok? <==> 0 <= i < dims[0] && 0 <= j < Product(dims[1..])
    ensures r.Ok? ==> 0 <= r.value < Numel(dims)
    ensures r.Ok? ==> r.value == j * dims[0] + i
  {
    assert dims == [dims[0]] + dims[1..];
    ProductAppend([dims[0]], dims[1..]);
    assert [dims[0]][..0] == [];
    if i < 0 then Err(InvalidIndex(i, 2, 1))
    else if j < 0 then Err(InvalidIndex(j, 2, 2))
    else if i >= dims[0] then Err(OutOfRange(2, 1, i + 1, dims[0]))
    else if j >= Product(dims[1..]) then Err(OutOfRange(2, 2, j + 1, Product(dims[1..])))
    else
      OffsetBounds([i, j], [dims[0], Product(dims[1..])]);
      Offset2([i, j], [dims[0], Product(dims[1..])]);
      Ok(j * dims[0] + i)
  }

  /** `compute_index (i, j, k, dims)`: the page subscript ranges over all
      dimensions from the third on folded together. */
  function ComputeIndex3(i: int, j: int, k: int, dims: DimVector): (r: Result<int, IndexError>)
    ensures r.Ok? <==> 0 <= i < dims[0] && 0 <= j < dims[1] && 0 <= k < Product(dims[2..])
    ensures r.Ok? ==> 0 <= r.value < Numel(dims)
    ensures r.Ok? ==> r.value == (k * dims[1] + j) * dims[0] + i
  {
    var tail := Product(dims[2..]);
    assert dims == [dims[0], dims[1]] + dims[2..];
    ProductAppend([dims[0], dims[1]], dims[2..]);
    Product2([dims[0], dims[1], tail]);
    Product2([dims[0], dims[1]]);
    if i < 0 then Err(InvalidIndex(i, 3, 1))
    else if j < 0 then Err(InvalidIndex(j, 3, 2))
    else if k < 0 then Err(InvalidIndex(k, 3, 3))
    else if i >= dims[0] then Err(OutOfRange(3, 1, i + 1, dims[0]))
    else if j >= dims[1] then Err(OutOfRange(3, 2, j + 1, dims[1]))
    else if k >= tail then Err(OutOfRange(3, 3, k + 1, tail))
    else
      OffsetBounds([i, j, k], [dims[0], dims[1], tail]);
      Offset3([i, j, k], [dims[0], dims[1], tail]);
      Ok((k * dims[1] + j) * dims[0] + i)
  }

  /** An R x C array has R * C elements. */
  lemma NumelOfMatrix(r: nat, c: nat)
    ensures Numel([r, c]) == r * c
  {
    assert [r, c][..1] == [r];
    assert [r][..0] == [];
    assert Product([r]) == r;
  }

  lemma Product2(d: seq<nat>)
    requires 1 <= |d| <= 3
    ensures Product(d[..1]) == d[0]
    ensures |d| >= 2 ==> Product(d[..2]) == d[0] * d[1]
    ensures |d| == 3 ==> Product(d) == d[0] * d[1] * d[2]
  {
    assert d[..1][..0] == [];
    if |d| >= 2 {
      assert d[..2][..1] == d[..1];
    }
    if |d| == 3 {
      assert d[..2] == d[..3][..2];
      assert d == d[..3];
    }
  }

  lemma Offset1(idx: seq<int>, d: seq<nat>)
    requires |idx| == |d| == 1
    ensures Offset(idx, d) == idx[0]
  {
    assert idx[..0] == [] && d[..0] == [];
    assert Offset(idx, d) == Offset(idx[..0], d[..0]) + idx[0] * Product(d[..0]);
  }

  lemma Offset2(idx: seq<int>, d: seq<nat>)
    requires |idx| == |d| == 2
    ensures Offset(idx, d) == idx[1] * d[0] + idx[0]
  {
    Offset1(idx[..1], d[..1]);
    Product2(d);
    assert Offset(idx, d) == Offset(idx[..1], d[..1]) + idx[1] * Product(d[..1]);
  }

  lemma Offset3(idx: seq<int>, d: seq<nat>)
    requires |idx| == |d| == 3
    ensures Offset(idx, d) == (idx[2] * d[1] + idx[1]) * d[0] + idx[0]
  {
    Offset2(idx[..2], d[..2]);
    Product2(d);
    assert d[..2][..1] == d[..1];
  }

  /** The one-subscript overload is the general one on a single subscript,
      errors included. */
  lemma ComputeIndex1Agrees(n: int, dims: DimVector)
    ensures ComputeIndex1(n, dims) == ComputeIndex([n], dims)
  {
    var dv := Redim(dims, 1);
    assert dims[0..] == dims;
    assert dv == [Numel(dims)];
    if 0 <= n < Numel(dims) {
      assert FirstBadSubscript([n], dv, 0) == None;
      Offset1([n], dv);
    }
  }

  /** The two-subscript overload accepts exactly the pairs the general one
      accepts and computes the same offset. The reported error differs
      exactly when `i` is past its extent and `j` is negative: the overload
      checks both signs first, the general form one position at a time. */
  lemma ComputeIndex2Agrees(i: int, j: int, dims: DimVector)
    ensures ComputeIndex2(i, j, dims).Ok? <==> ComputeIndex([i, j], dims).Ok?
    ensures ComputeIndex2(i, j, dims).Ok? ==>
              ComputeIndex2(i, j, dims).value == ComputeIndex([i, j], dims).value
    ensures ComputeIndex2(i, j, dims) == ComputeIndex([i, j], dims) <==> !(i >= dims[0] && j < 0)
  {
    var dv := Redim(dims, 2);
    if |dims| == 2 {
      assert dims[1..] == [dims[1]];
      assert [dims[1]][..0] == [];
    } else {
      assert dims[2 - 1..] == dims[1..];
    }
    assert dv == [dims[0], Product(dims[1..])];
    Offset2([i, j], dv);
    var idx := [i, j];
    assert FirstBadSubscript(idx, dv, 2) == None;
    assert FirstBadSubscript(idx, dv, 1) == FirstBadSubscript([i, j], dv, 1);
  }

  /** On a 2x3 shape the subscripts (5, -1) fail in both forms, but the
      two-subscript overload names the negative column while the general
      form names the row that is out of range. */
  lemma ComputeIndex2ErrorExample()
    ensures ComputeIndex2(5, -1, [2, 3]) == Err(InvalidIndex(-1, 2, 2))
    ensures ComputeIndex([5, -1], [2, 3]) == Err(OutOfRange(2, 1, 6, 2))
  {
  }

  /** The three-subscript overload accepts exactly the triples the general one
      accepts and computes the same offset. The reported error differs
      exactly when a subscript past its extent precedes a negative one. */
  lemma ComputeIndex3Agrees(i: int, j: int, k: int, dims: DimVector)
    ensures ComputeIndex3(i, j, k, dims).Ok? <==> ComputeIndex([i, j, k], dims).Ok?
    ensures ComputeIndex3(i, j, k, dims).Ok? ==>
              ComputeIndex3(i, j, k, dims).value == ComputeIndex([i, j, k], dims).value
    ensures ComputeIndex3(i, j, k, dims) == ComputeIndex([i, j, k], dims) <==>
              !((i >= dims[0] && (j < 0 || k < 0)) || (0 <= i < dims[0] && j >= dims[1] && k < 0))
  {
    var dv := Redim(dims, 3);
    if |dims| == 2 {
      assert dims[2..] == [];
    } else {
      assert dims[3 - 1..] == dims[2..];
    }
    assert dv == [dims[0], dims[1], Product(dims[2..])];
    Offset3([i, j, k], dv);
    var idx := [i, j, k];
    assert FirstBadSubscript(idx, dv, 3) == None;
    assert FirstBadSubscript(idx, dv, 2) == FirstBadSubscript([i, j, k], dv, 2);
    assert FirstBadSubscript(idx, dv, 1) == FirstBadSubscript([i, j, k], dv, 1);
  }

  // ---------------------------------------------------------------------------
  // increment_index and get_ra_idx

  /** Extent used when carrying out of position `i`: positions past the last
      dimension count as extent 1. */
  function ExtentAt(d: seq<nat>, i: nat): nat
  {
    if i < |d| then d[i] else 1
  }

  /** The carry loop of `increment_index`, from position `i` on: a subscript
      that reached its extent is reset to zero and the next one is bumped;
      the last subscript is never reset. */
  function Carry(idx: seq<int>, d: seq<nat>, i: nat): (r: seq<int>)
    requires i < |idx|
    ensures |r| == |idx|
    ensures forall k :: 0 <= k < i ==> r[k] == idx[k]
    decreases |idx| - i
  {
    if i == |idx| - 1 || idx[i] < ExtentAt(d, i) then idx
    else Carry(idx[i := 0][i + 1 := idx[i + 1] + 1], d, i + 1)
  }

  /** `increment_index`: advance the subscripts by one step in
      first-dimension-fastest order, starting at `start`. */
  function IncrementIndex(raIdx: seq<int>, dims: DimVector, start: nat := 0): (r: seq<int>)
    requires start < |raIdx|
    ensures |r| == |raIdx|
    ensures forall k :: 0 <= k < start ==> r[k] == raIdx[k]
  {
    Carry(raIdx[start := raIdx[start] + 1], dims, start)
  }

  /** Subscripts reachable by counting up from zero: every subscript but the
      last lies within its extent, and the last is not negative. */
  predicate Odometer(idx: seq<int>, d: seq<nat>)
  {
    |idx| == |d| && |d| > 0
    && (forall k :: 0 <= k < |d| - 1 ==> 0 <= idx[k] < d[k])
    && idx[|d| - 1] >= 0
  }

  lemma UnitStep(x: int, p: int)
    ensures (x + 1 - x) * p == p
  {
  }

  lemma CarryStride(o: int, m: int, p: int)
    ensures o + (0 - m) * p + (1 - 0) * (p * m) == o
  {
  }

  lemma {:induction false} CarryKeepsOffset(idx: seq<int>, d: seq<nat>, i: nat)
    requires |idx| == |d| && i < |idx|
    requires forall k :: 0 <= k < i ==> 0 <= idx[k] < d[k]
    requires i < |idx| - 1 ==> 0 <= idx[i] <= d[i] && d[i] > 0
    requires forall k :: i < k < |idx| - 1 ==> 0 <= idx[k] < d[k]
    requires idx[|idx| - 1] >= 0
    ensures Odometer(Carry(idx, d, i), d)
    ensures Offset(Carry(idx, d, i), d) == Offset(idx, d)
    decreases |idx| - i
  {
    if i == |idx| - 1 || idx[i] < ExtentAt(d, i) {
    } else {
      var z := idx[i := 0];
      var next := z[i + 1 := idx[i + 1] + 1];
      OffsetUpdate(idx, d, i, 0);
      OffsetUpdate(z, d, i + 1, idx[i + 1] + 1);
      ProductStep(d, i);
      CarryStride(Offset(idx, d), d[i], Product(d[..i]));
      assert Offset(next, d) == Offset(idx, d);
      assert forall k :: 0 <= k < |idx| && k != i && k != i + 1 ==> next[k] == idx[k];
      assert next[i] == 0 && next[i + 1] == idx[i + 1] + 1;
      CarryKeepsOffset(next, d, i + 1);
      assert Carry(idx, d, i) == Carry(next, d, i + 1);
    }
  }

  /** One increment advances the offset by the stride of `start` and keeps the
      subscripts in odometer form. */
  lemma IncrementAdvances(raIdx: seq<int>, dims: DimVector, start: nat)
    requires Odometer(raIdx, dims) && start < |raIdx|
    ensures Odometer(IncrementIndex(raIdx, dims, start), dims)
    ensures Offset(IncrementIndex(raIdx, dims, start), dims)
            == Offset(raIdx, dims) + Product(dims[..start])
  {
    var d: seq<nat> := dims;
    var n := |d|;
    var bumped := raIdx[start := raIdx[start] + 1];
    OffsetUpdate(raIdx, d, start, raIdx[start] + 1);
    assert forall k :: 0 <= k < start ==> 0 <= bumped[k] < d[k];
    assert start < n - 1 ==> 0 <= bumped[start] <= d[start] && d[start] > 0;
    assert forall k :: start < k < n - 1 ==> 0 <= bumped[k] < d[k];
    assert bumped[n - 1] >= 0;
    CarryKeepsOffset(bumped, d, start);
    var stride := Product(d[..start]);
    UnitStep(raIdx[start], stride);
    assert Offset(Carry(bumped, d, start), d) == Offset(raIdx, d) + stride;
    assert IncrementIndex(raIdx, dims, start) == Carry(bumped, d, start);
  }

  /** Subscripts in odometer form whose offset is below the element count are in bounds. */
  lemma OdometerInBounds(idx: seq<int>, d: seq<nat>)
    requires Odometer(idx, d) && Offset(idx, d) < Product(d)
    ensures InBounds(idx, d)
  {
    var n := |d|;
    assert forall k :: 0 <= k < n - 1 ==> idx[..n - 1][k] == idx[k] && d[..n - 1][k] == d[k];
    OffsetBounds(idx[..n - 1], d[..n - 1]);
    var p := Product(d[..n - 1]);
    if idx[n - 1] >= d[n - 1] {
      MulLeMono(d[n - 1], idx[n - 1], p);
      assert false;
    }
  }

  /** `get_ra_idx`: the subscripts of linear index `idx`, found by incrementing
      an all-zero subscript vector `idx` times. A valid index yields
      subscripts in bounds whose column-major offset is `idx` itself. */
  function GetRaIdx(idx: int, dims: DimVector): (r: seq<int>)
    ensures |r| == |dims|
    ensures 0 <= idx < Numel(dims) ==> Odometer(r, dims) && Offset(r, dims) == idx
    ensures 0 <= idx < Numel(dims) ==> InBounds(r, dims)
    decreases idx
  {
    if idx <= 0 then
      if idx == 0 && Numel(dims) > 0 then
        ProductPositive(dims);
        OffsetOfZeros(|dims|, dims);
        OdometerInBounds(Zeros(|dims|), dims);
        Zeros(|dims|)
      else Zeros(|dims|)
    else
      var prev := GetRaIdx(idx - 1, dims);
      if idx < Numel(dims) then
        IncrementAdvances(prev, dims, 0);
        assert dims[..0] == [];
        OdometerInBounds(IncrementIndex(prev, dims, 0), dims);
        IncrementIndex(prev, dims, 0)
      else IncrementIndex(prev, dims, 0)
  }

  /** Round trip: the subscripts recovered from a valid linear index are in
      bounds and `compute_index` maps them back to that index. */
  lemma GetRaIdxRoundTrip(i: int, dims: DimVector)
    requires 0 <= i < Numel(dims)
    ensures InBounds(GetRaIdx(i, dims), dims)
    ensures ComputeIndex(GetRaIdx(i, dims), dims) == Ok(i)
  {
    OdometerInBounds(GetRaIdx(i, dims), dims);
    assert Redim(dims, |dims|) == dims;
  }

  /** Round trip the other way: in-bounds subscripts are recovered from their
      own linear index. */
  lemma ComputeIndexRoundTrip(raIdx: seq<int>, dims: DimVector)
    requires InBounds(raIdx, dims)
    ensures ComputeIndex(raIdx, dims).Ok?
    ensures GetRaIdx(ComputeIndex(raIdx, dims).value, dims) == raIdx
  {
    assert Redim(dims, |dims|) == dims;
    var o := Offset(raIdx, dims);
    OffsetBounds(raIdx, dims);
    GetRaIdxRoundTrip(o, dims);
    OffsetInjective(GetRaIdx(o, dims), raIdx, dims);
  }

  /** The carry examples of the odometer on a 2x3 shape. */
  lemma IncrementExamples()
    ensures IncrementIndex([0, 0], [2, 3]) == [1, 0]
    ensures IncrementIndex([1, 0], [2, 3]) == [0, 1]
    ensures IncrementIndex([1, 2], [2, 3]) == [0, 3]
  {
    assert [0, 0][0 := 1] == [1, 0];
    assert [1, 0][0 := 2] == [2, 0];
    assert [2, 0][0 := 0][1 := 1] == [0, 1];
    assert Carry([2, 0], [2, 3], 0) == Carry([0, 1], [2, 3], 1);
    assert [1, 2][0 := 2] == [2, 2];
    assert [2, 2][0 := 0][1 := 3] == [0, 3];
    assert Carry([2, 2], [2, 3], 0) == Carry([0, 3], [2, 3], 1);
  }

  // ---------------------------------------------------------------------------
  // Counting ones and shape predicates

  /** `num_ones`: how many entries equal 1. */
  function NumOnes(a: seq<int>): (r: nat)
    ensures r == multiset(a)[1]
    ensures r <= |a|
  {
    if |a| == 0 then 0
    else
      assert a == a[..|a| - 1] + [a[|a| - 1]];
      NumOnes(a[..|a| - 1]) + (if a[|a| - 1] == 1 then 1 else 0)
  }

  /** `any_ones`: some entry equals 1. */
  function AnyOnes(a: seq<int>): (r: bool)
    ensures r <==> NumOnes(a) > 0
    ensures r <==> 1 in a
  {
    if |a| == 0 then false
    else
      assert a == a[..|a| - 1] + [a[|a| - 1]];
      a[|a| - 1] == 1 || AnyOnes(a[..|a| - 1])
  }

  /** `all_ones`: every entry equals 1. */
  function AllOnes(a: seq<int>): (r: bool)
    ensures r <==> NumOnes(a) == |a|
    ensures r <==> forall k :: 0 <= k < |a| ==> a[k] == 1
  {
    if |a| == 0 then true
    else
      assert a == a[..|a| - 1] + [a[|a| - 1]];
      assert forall k :: 0 <= k < |a| - 1 ==> a[..|a| - 1][k] == a[k];
      a[|a| - 1] == 1 && AllOnes(a[..|a| - 1])
  }

  /** `is_scalar`: every extent equals 1. */
  function IsScalar(dim: DimVector): (r: bool)
    ensures r <==> forall k :: 0 <= k < |dim| ==> dim[k] == 1
    ensures r ==> Numel(dim) == 1
  {
    var r := AllOnes(dim);
    if r then
      assert dim == Ones(|dim|);
      ProductOfOnes(|dim|);
      r
    else r
  }

  /** The counter of `isvector`: each extent above 1 adds one, each zero extent adds two. */
  function VectorWeight(d: seq<nat>): nat
  {
    if |d| == 0 then 0
    else VectorWeight(d[..|d| - 1]) + (if d[|d| - 1] > 1 then 1 else if d[|d| - 1] < 1 then 2 else 0)
  }

  lemma {:induction false} VectorWeightZero(d: seq<nat>)
    ensures VectorWeight(d) == 0 <==> forall k :: 0 <= k < |d| ==> d[k] == 1
  {
    if |d| > 0 {
      var n := |d|;
      VectorWeightZero(d[..n - 1]);
      assert forall k :: 0 <= k < n - 1 ==> d[..n - 1][k] == d[k];
    }
  }

  /** No zero extent, and no two extents above 1. */
  predicate VectorShaped(d: seq<nat>)
  {
    (forall k :: 0 <= k < |d| ==> d[k] >= 1)
    && (forall j, k :: 0 <= j < k < |d| && d[j] > 1 ==> d[k] <= 1)
  }

  lemma {:induction false} VectorWeightBelowTwo(d: seq<nat>)
    ensures VectorWeight(d) < 2 <==> VectorShaped(d)
  {
    if |d| > 0 {
      var n := |d|;
      var p := d[..n - 1];
      assert forall k :: 0 <= k < n - 1 ==> p[k] == d[k];
      VectorWeightBelowTwo(p);
      VectorWeightZero(p);
      if d[n - 1] > 1 && VectorShaped(d) {
        assert forall k :: 0 <= k < n - 1 ==> p[k] == 1 by {
          forall k | 0 <= k < n - 1 ensures p[k] == 1 {
            assert d[k] >= 1;
            assert !(d[n - 1] > 1 && d[k] > 1);
          }
        }
      }
    }
  }

  /** `isvector`: no zero extent and at most one extent above 1 (scalars are vectors). */
  function IsVector(dim: DimVector): (r: bool)
    ensures r <==> VectorShaped(dim)
  {
    VectorWeightBelowTwo(dim);
    VectorWeight(dim) < 2
  }

  lemma ScalarIsVector(dim: DimVector)
    requires IsScalar(dim)
    ensures IsVector(dim)
  {
  }

  /** `all_ok`: kept for compatibility; accepts every index list. */
  function AllOk<I>(raIdx: seq<I>): (r: bool)
    ensures r
  {
    true
  }
}
