/** Element-wise comparison and boolean operators of `int8NDArray`:
    array against scalar, scalar against array, and array against array.
    Each yields a boolean array shaped like its array operand(s); the
    array-against-array forms require equal dimensions. For the boolean
    operators an element counts as true when it differs from `octave_int8 (0)`.
 */
module Int8Arrays {
  import opened ArrayUtil
  import opened Arrays
  import opened Outcomes

  /** `octave_int8`: the integers -128 .. 127. */
  newtype Int8 = x: int | -128 <= x < 128

  datatype CmpOp = Lt | Le | Ge | Gt | Eq | Ne

  datatype BoolOp = And | Or

  /** The relation `op` between two `octave_int8` values. */
  function Holds(op: CmpOp, x: Int8, y: Int8): bool
  {
    match op
    case Lt => x < y
    case Le => x <= y
    case Ge => x >= y
    case Gt => x > y
    case Eq => x == y
    case Ne => x != y
  }

  /** The relation with its operands exchanged. */
  function Converse(op: CmpOp): (c: CmpOp)
    ensures forall x: Int8, y: Int8 :: Holds(c, y, x) == Holds(op, x, y)
  {
    match op
    case Lt => Gt
    case Le => Ge
    case Ge => Le
    case Gt => Lt
    case Eq => Eq
    case Ne => Ne
  }

  /** The relation that holds exactly when `op` does not. */
  function Negation(op: CmpOp): (c: CmpOp)
    ensures forall x: Int8, y: Int8 :: Holds(c, x, y) == !Holds(op, x, y)
  {
    match op
    case Lt => Ge
    case Le => Gt
    case Ge => Lt
    case Gt => Le
    case Eq => Ne
    case Ne => Eq
  }

  function Combine(op: BoolOp, p: bool, q: bool): bool
  {
    match op
    case And => p && q
    case Or => p || q
  }

  /** The truth value of an element for the boolean operators. */
  predicate Truth(x: Int8)
  {
    x != 0
  }

  /** Name of the generated operator, as reported on a shape mismatch. */
  function CmpName(op: CmpOp): string
  {
    match op
    case Lt => "mx_el_lt"
    case Le => "mx_el_le"
    case Ge => "mx_el_ge"
    case Gt => "mx_el_gt"
    case Eq => "mx_el_eq"
    case Ne => "mx_el_ne"
  }

  function BoolName(op: BoolOp): string
  {
    match op
    case And => "mx_el_and"
    case Or => "mx_el_or"
  }

  /** Operands of an array-against-array operator had different dimensions. */
  datatype Nonconformant = Nonconformant(op: string, left: DimVector, right: DimVector)

  // ---------------------------------------------------------------------------
  // Array against scalar

  /** `NDS_CMP_OPS`: element `i` of the result is `m[i] OP s`. */
  function CmpArrayScalar(op: CmpOp, m: NDArray<Int8>, s: Int8): (r: NDArray<bool>)
    requires m.Valid()
    ensures r.Valid() && r.dims == m.dims
    ensures forall i :: 0 <= i < |m.data| ==> r.data[i] == Holds(op, m.data[i], s)
  {
    MapElems(m, x => Holds(op, x, s))
  }

  /** `NDS_BOOL_OPS`: element `i` of the result is `(m[i] != 0) OP (s != 0)`. */
  function BoolArrayScalar(op: BoolOp, m: NDArray<Int8>, s: Int8): (r: NDArray<bool>)
    requires m.Valid()
    ensures r.Valid() && r.dims == m.dims
    ensures forall i :: 0 <= i < |m.data| ==> r.data[i] == Combine(op, Truth(m.data[i]), Truth(s))
  {
    MapElems(m, x => Combine(op, Truth(x), Truth(s)))
  }

  // ---------------------------------------------------------------------------
  // Scalar against array

  /** `SND_CMP_OPS`: element `i` of the result is `s OP m[i]`. */
  function CmpScalarArray(op: CmpOp, s: Int8, m: NDArray<Int8>): (r: NDArray<bool>)
    requires m.Valid()
    ensures r.Valid() && r.dims == m.dims
    ensures forall i :: 0 <= i < |m.data| ==> r.data[i] == Holds(op, s, m.data[i])
  {
    MapElems(m, x => Holds(op, s, x))
  }

  /** `SND_BOOL_OPS`: element `i` of the result is `(s != 0) OP (m[i] != 0)`. */
  function BoolScalarArray(op: BoolOp, s: Int8, m: NDArray<Int8>): (r: NDArray<bool>)
    requires m.Valid()
    ensures r.Valid() && r.dims == m.dims
    ensures forall i :: 0 <= i < |m.data| ==> r.data[i] == Combine(op, Truth(s), Truth(m.data[i]))
  {
    MapElems(m, x => Combine(op, Truth(s), Truth(x)))
  }

  // ---------------------------------------------------------------------------
  // Array against array

  /** `NDND_CMP_OPS`: element-wise `a[i] OP b[i]` for equal dimensions, a
      nonconformant-arguments error otherwise. */
  function CmpArrays(op: CmpOp, a: NDArray<Int8>, b: NDArray<Int8>): (r: Result<NDArray<bool>, Nonconformant>)
    requires a.Valid() && b.Valid()
    ensures r.Ok? <==> a.dims == b.dims
    ensures r.Err? ==> r.error == Nonconformant(CmpName(op), a.dims, b.dims)
    ensures r.Ok? ==> r.value.Valid() && r.value.dims == a.dims
    ensures r.Ok? ==> forall i :: 0 <= i < |a.data| ==> r.value.data[i] == Holds(op, a.data[i], b.data[i])
  {
    if a.dims == b.dims then Ok(ZipElems(a, b, (x, y) => Holds(op, x, y)))
    else Err(Nonconformant(CmpName(op), a.dims, b.dims))
  }

  /** `NDND_BOOL_OPS`: element-wise `(a[i] != 0) OP (b[i] != 0)` for equal
      dimensions, a nonconformant-arguments error otherwise. */
  function BoolArrays(op: BoolOp, a: NDArray<Int8>, b: NDArray<Int8>): (r: Result<NDArray<bool>, Nonconformant>)
    requires a.Valid() && b.Valid()
    ensures r.Ok? <==> a.dims == b.dims
    ensures r.Err? ==> r.error == Nonconformant(BoolName(op), a.dims, b.dims)
    ensures r.Ok? ==> r.value.Valid() && r.value.dims == a.dims
    ensures r.Ok? ==> forall i :: 0 <= i < |a.data| ==>
              r.value.data[i] == Combine(op, Truth(a.data[i]), Truth(b.data[i]))
  {
    if a.dims == b.dims then Ok(ZipElems(a, b, (x, y) => Combine(op, Truth(x), Truth(y))))
    else Err(Nonconformant(BoolName(op), a.dims, b.dims))
  }

  // ---------------------------------------------------------------------------
  // Properties

  /** Scalar-against-array is array-against-scalar with the relation reversed. */
  lemma ScalarArrayIsConverse(op: CmpOp, s: Int8, m: NDArray<Int8>)
    requires m.Valid()
    ensures CmpScalarArray(op, s, m) == CmpArrayScalar(Converse(op), m, s)
  {
  }

  /** The negated relation yields the complementary boolean array. */
  lemma NegationComplements(op: CmpOp, m: NDArray<Int8>, s: Int8)
    requires m.Valid()
    ensures forall i :: 0 <= i < |m.data| ==>
              CmpArrayScalar(Negation(op), m, s).data[i] == !CmpArrayScalar(op, m, s).data[i]
  {
  }

  /** Comparing against an array filled with `s` is comparing against `s`. */
  lemma ConstantOperand(op: CmpOp, a: NDArray<Int8>, s: Int8)
    requires a.Valid()
    ensures CmpArrays(op, a, Fill(a.dims, s)) == Ok(CmpArrayScalar(op, a, s))
    ensures BoolArrays(And, a, Fill(a.dims, s)) == Ok(BoolArrayScalar(And, a, s))
    ensures BoolArrays(Or, a, Fill(a.dims, s)) == Ok(BoolArrayScalar(Or, a, s))
  {
    var f := Fill(a.dims, s);
    Extensional(CmpArrays(op, a, f).value, CmpArrayScalar(op, a, s));
    Extensional(BoolArrays(And, a, f).value, BoolArrayScalar(And, a, s));
    Extensional(BoolArrays(Or, a, f).value, BoolArrayScalar(Or, a, s));
  }

  /** The boolean operators see only which elements are zero. */
  lemma BoolSeesOnlyZeros(op: BoolOp, m1: NDArray<Int8>, m2: NDArray<Int8>, s1: Int8, s2: Int8)
    requires m1.Valid() && m2.Valid() && m1.dims == m2.dims
    requires forall i :: 0 <= i < |m1.data| ==> (m1.data[i] == 0 <==> m2.data[i] == 0)
    requires s1 == 0 <==> s2 == 0
    ensures BoolArrayScalar(op, m1, s1) == BoolArrayScalar(op, m2, s2)
    ensures BoolScalarArray(op, s1, m1) == BoolScalarArray(op, s2, m2)
  {
  }

  /** `and`/`or` are symmetric in their operands. */
  lemma BoolSymmetric(op: BoolOp, s: Int8, m: NDArray<Int8>)
    requires m.Valid()
    ensures BoolScalarArray(op, s, m) == BoolArrayScalar(op, m, s)
  {
  }

  /** A zero scalar makes `and` all false; a non-zero scalar makes `or` all true. */
  lemma BoolAbsorbing(m: NDArray<Int8>, s: Int8)
    requires m.Valid()
    ensures s == 0 ==> forall i :: 0 <= i < |m.data| ==> !BoolArrayScalar(And, m, s).data[i]
    ensures s != 0 ==> forall i :: 0 <= i < |m.data| ==> BoolArrayScalar(Or, m, s).data[i]
  {
  }

  /** Array-against-array operators fail exactly on a shape mismatch, for
      comparisons and boolean operators alike. */
  lemma ShapeMismatch(cmp: CmpOp, bop: BoolOp, a: NDArray<Int8>, b: NDArray<Int8>)
    requires a.Valid() && b.Valid()
    ensures CmpArrays(cmp, a, b).Err? <==> BoolArrays(bop, a, b).Err?
    ensures a.dims != b.dims ==> CmpArrays(cmp, a, b).error.left == a.dims
  {
  }

  /** An array compared with itself: `eq`, `le` and `ge` hold everywhere,
      `ne`, `lt` and `gt` nowhere. */
  lemma SelfComparison(op: CmpOp, a: NDArray<Int8>)
    requires a.Valid()
    ensures CmpArrays(op, a, a).Ok?
    ensures forall i :: 0 <= i < |a.data| ==>
              CmpArrays(op, a, a).value.data[i] == (op == Eq || op == Le || op == Ge)
  {
  }
}
