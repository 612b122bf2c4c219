/** Operators between a single-precision real scalar (`float_scalar`) and a
    single-precision complex matrix (`float_complex_matrix`): the kernels, and
    the entries `install_fs_fcm_ops` puts into the interpreter's type-info
    registry.

    Element arithmetic is exact arithmetic over `real`. What single-precision
    IEEE arithmetic does at a zero divisor, the ordering of complex numbers
    and the foreign routines `xdiv`, `xpow`, `elem_xdiv` and `elem_xpow` are
    parameters (a `Numerics` record), so every property below holds whatever
    they compute.
 */
module FsFcmOps {
  import opened ArrayUtil
  import opened Arrays
  import opened Outcomes

  // ---------------------------------------------------------------------------
  // Values

  datatype Complex = Complex(re: real, im: real)

  /** A real number as a complex one with zero imaginary part. */
  function FromReal(x: real): Complex
  {
    Complex(x, 0.0)
  }

  /** Truth of a complex element for `and`/`or`: different from zero. */
  predicate NonZero(z: Complex)
  {
    z.re != 0.0 || z.im != 0.0
  }

  /** The structure type cached with a complex matrix (full, diagonal,
      triangular, ...); only the linear solver reads and refines it. */
  datatype MatrixType = MatrixType(code: nat)

  /** An `octave_float_complex_matrix` value: its elements and cached type. */
  datatype Fcm = Fcm(m: NDArray<Complex>, typ: MatrixType)

  /** A kernel's result value. */
  datatype Value = ComplexArray(c: NDArray<Complex>) | BoolArray(b: NDArray<bool>)

  // ---------------------------------------------------------------------------
  // Registry

  /** The value types that occur in this file; any other registered type is `OtherType`. */
  datatype TypeTag = FloatScalarT | ScalarT | FloatComplexMatrixT | ComplexMatrixT | OtherType(name: string)

  /** The interpreter's binary operators, in `octave_value::binary_op` order. */
  datatype BinaryOp =
    | Add | Sub | Mul | Div | Pow | Ldiv
    | Lt | Le | Eq | Ge | Gt | Ne
    | ElMul | ElDiv | ElPow | ElLdiv | ElAnd | ElOr
    | StructRef

  /** A registered binary kernel: one defined in this file, or one defined elsewhere. */
  datatype BinaryKernel = FsFcm(op: BinaryOp) | ForeignBinary(id: nat)

  /** Concatenation kernels `fs_fcm`, `s_fcm`, `fs_cm`, or one defined elsewhere. */
  datatype CatKernel = FsFcmCat | SFcmCat | FsCmCat | ForeignCat(id: nat)

  /** Widening conversions: `float_complex_matrix_conv`, or one defined elsewhere. */
  datatype WidenKernel = FloatComplexMatrixConv | ForeignWiden(id: nat)

  datatype TypeInfo = TypeInfo(
    binops: map<(BinaryOp, TypeTag, TypeTag), BinaryKernel>,
    catops: map<(TypeTag, TypeTag), CatKernel>,
    assignConv: map<(TypeTag, TypeTag), TypeTag>,
    widenOps: map<(TypeTag, TypeTag), WidenKernel>)

  const EmptyTypeInfo := TypeInfo(map[], map[], map[], map[])

  /** The binary operators `install_fs_fcm_ops` installs, in source order. */
  const InstallOrder: seq<BinaryOp> :=
    [Add, Sub, Mul, Div, Pow, Ldiv, Lt, Le, Eq, Ge, Gt, Ne,
     ElMul, ElDiv, ElPow, ElLdiv, ElAnd, ElOr]

  /** Registry key of operator `op` on `(float_scalar, float_complex_matrix)`. */
  function FsFcmKey(op: BinaryOp): (BinaryOp, TypeTag, TypeTag)
  {
    (op, FloatScalarT, FloatComplexMatrixT)
  }

  /** `k` is the key of one of the operators `ops` on `(float_scalar, float_complex_matrix)`. */
  predicate KeyOf(k: (BinaryOp, TypeTag, TypeTag), ops: seq<BinaryOp>)
  {
    k.1 == FloatScalarT && k.2 == FloatComplexMatrixT && k.0 in ops
  }

  /** The binary-operator keys `install_fs_fcm_ops` writes: every operator
      except `StructRef` on `(float_scalar, float_complex_matrix)`. */
  predicate InstalledKey(k: (BinaryOp, TypeTag, TypeTag))
  {
    k.1 == FloatScalarT && k.2 == FloatComplexMatrixT && k.0 != StructRef
  }

  const CatKeys: set<(TypeTag, TypeTag)> :=
    {(FloatScalarT, FloatComplexMatrixT), (ScalarT, FloatComplexMatrixT), (FloatScalarT, ComplexMatrixT)}

  const AssignConvKeys: set<(TypeTag, TypeTag)> :=
    {(FloatScalarT, FloatComplexMatrixT), (ScalarT, FloatComplexMatrixT)}

  /** Every operator except `StructRef` is in the installation list, once. */
  lemma InstallOrderContents()
    ensures forall op :: op in InstallOrder <==> op != StructRef
    ensures forall i, j :: 0 <= i < j < |InstallOrder| ==> InstallOrder[i] != InstallOrder[j]
  {
    forall op: BinaryOp
      ensures op in InstallOrder <==> op != StructRef
    {
      match op
      case Add => assert InstallOrder[0] == op;
      case Sub => assert InstallOrder[1] == op;
      case Mul => assert InstallOrder[2] == op;
      case Div => assert InstallOrder[3] == op;
      case Pow => assert InstallOrder[4] == op;
      case Ldiv => assert InstallOrder[5] == op;
      case Lt => assert InstallOrder[6] == op;
      case Le => assert InstallOrder[7] == op;
      case Eq => assert InstallOrder[8] == op;
      case Ge => assert InstallOrder[9] == op;
      case Gt => assert InstallOrder[10] == op;
      case Ne => assert InstallOrder[11] == op;
      case ElMul => assert InstallOrder[12] == op;
      case ElDiv => assert InstallOrder[13] == op;
      case ElPow => assert InstallOrder[14] == op;
      case ElLdiv => assert InstallOrder[15] == op;
      case ElAnd => assert InstallOrder[16] == op;
      case ElOr => assert InstallOrder[17] == op;
      case StructRef =>
    }
  }

  /** `INSTALL_BINOP_TI` for each operator of `ops`, one after another; an
      install overwrites any entry already under its key. */
  function {:induction false} InstallBinops(
    binops: map<(BinaryOp, TypeTag, TypeTag), BinaryKernel>, ops: seq<BinaryOp>): (r: map<(BinaryOp, TypeTag, TypeTag), BinaryKernel>)
    ensures forall k :: k in r <==> k in binops || KeyOf(k, ops)
    ensures forall op :: op in ops ==> FsFcmKey(op) in r && r[FsFcmKey(op)] == FsFcm(op)
    ensures forall k :: k in binops && !KeyOf(k, ops) ==> r[k] == binops[k]
    decreases |ops|
  {
    if ops == [] then binops
    else
      assert forall op :: op in ops <==> op == ops[0] || op in ops[1..];
      InstallBinops(binops[FsFcmKey(ops[0]) := FsFcm(ops[0])], ops[1..])
  }

  /** Installing distinct new operators adds one entry per operator. */
  lemma {:induction false} InstallBinopsSize(binops: map<(BinaryOp, TypeTag, TypeTag), BinaryKernel>, ops: seq<BinaryOp>)
    requires forall i, j :: 0 <= i < j < |ops| ==> ops[i] != ops[j]
    requires forall k :: k in binops ==> !KeyOf(k, ops)
    ensures |InstallBinops(binops, ops)| == |binops| + |ops|
    decreases |ops|
  {
    if ops != [] {
      var next := binops[FsFcmKey(ops[0]) := FsFcm(ops[0])];
      assert FsFcmKey(ops[0]) !in binops;
      assert |next| == |binops| + 1;
      forall k | k in next
        ensures !KeyOf(k, ops[1..])
      {
        if k != FsFcmKey(ops[0]) {
          assert k in binops;
          assert !KeyOf(k, ops);
        }
      }
      InstallBinopsSize(next, ops[1..]);
    }
  }

  /** All the entries for `ops` merged over `binops` at once. */
  function Merged(binops: map<(BinaryOp, TypeTag, TypeTag), BinaryKernel>, ops: seq<BinaryOp>): map<(BinaryOp, TypeTag, TypeTag), BinaryKernel>
  {
    binops + map op | op in ops :: FsFcmKey(op) := FsFcm(op)
  }

  lemma MergedCoversInstalled(binops: map<(BinaryOp, TypeTag, TypeTag), BinaryKernel>, ops: seq<BinaryOp>)
    ensures forall k :: k in InstallBinops(binops, ops) ==>
              k in Merged(binops, ops) && Merged(binops, ops)[k] == InstallBinops(binops, ops)[k]
  {
    var a := InstallBinops(binops, ops);
    forall k | k in a
      ensures k in Merged(binops, ops) && Merged(binops, ops)[k] == a[k]
    {
      if KeyOf(k, ops) {
        assert k == FsFcmKey(k.0);
      }
    }
  }

  lemma InstalledCoversMerged(binops: map<(BinaryOp, TypeTag, TypeTag), BinaryKernel>, ops: seq<BinaryOp>)
    ensures forall k :: k in Merged(binops, ops) ==> k in InstallBinops(binops, ops)
  {
    forall k | k in Merged(binops, ops)
      ensures k in InstallBinops(binops, ops)
    {
      if k !in binops {
        var op :| op in ops && k == FsFcmKey(op);
      }
    }
  }

  /** Installing operators one at a time builds the same table as merging
      all their entries over the old table at once. */
  lemma InstallBinopsMerges(binops: map<(BinaryOp, TypeTag, TypeTag), BinaryKernel>, ops: seq<BinaryOp>)
    ensures InstallBinops(binops, ops) == Merged(binops, ops)
  {
    MergedCoversInstalled(binops, ops);
    InstalledCoversMerged(binops, ops);
  }

  /** The eighteen `INSTALL_BINOP_TI` calls of `install_fs_fcm_ops`. */
  function InstallFsFcmBinops(binops: map<(BinaryOp, TypeTag, TypeTag), BinaryKernel>): (r: map<(BinaryOp, TypeTag, TypeTag), BinaryKernel>)
    ensures forall k :: k in r <==> k in binops || InstalledKey(k)
    ensures forall op :: op != StructRef ==> FsFcmKey(op) in r && r[FsFcmKey(op)] == FsFcm(op)
    ensures forall k :: k in binops && !InstalledKey(k) ==> r[k] == binops[k]
  {
    InstallOrderContents();
    Merged(binops, InstallOrder)
  }

  /** The three `INSTALL_CATOP_TI` calls. */
  function InstallCatops(catops: map<(TypeTag, TypeTag), CatKernel>): (r: map<(TypeTag, TypeTag), CatKernel>)
    ensures r.Keys == catops.Keys + CatKeys
    ensures r[(FloatScalarT, FloatComplexMatrixT)] == FsFcmCat
    ensures r[(ScalarT, FloatComplexMatrixT)] == SFcmCat
    ensures r[(FloatScalarT, ComplexMatrixT)] == FsCmCat
    ensures forall k :: k in catops && k !in CatKeys ==> r[k] == catops[k]
  {
    catops[(FloatScalarT, FloatComplexMatrixT) := FsFcmCat]
          [(ScalarT, FloatComplexMatrixT) := SFcmCat]
          [(FloatScalarT, ComplexMatrixT) := FsCmCat]
  }

  /** The two `INSTALL_ASSIGNCONV_TI` calls: assigning a float scalar into a
      float complex matrix keeps single precision, a double scalar widens the
      result to a double complex matrix. */
  function InstallAssignConv(conv: map<(TypeTag, TypeTag), TypeTag>): (r: map<(TypeTag, TypeTag), TypeTag>)
    ensures r.Keys == conv.Keys + AssignConvKeys
    ensures r[(FloatScalarT, FloatComplexMatrixT)] == FloatComplexMatrixT
    ensures r[(ScalarT, FloatComplexMatrixT)] == ComplexMatrixT
    ensures forall k :: k in conv && k !in AssignConvKeys ==> r[k] == conv[k]
  {
    conv[(FloatScalarT, FloatComplexMatrixT) := FloatComplexMatrixT]
        [(ScalarT, FloatComplexMatrixT) := ComplexMatrixT]
  }

  /** The `INSTALL_WIDENOP_TI` call. */
  function InstallWidenOps(widen: map<(TypeTag, TypeTag), WidenKernel>): (r: map<(TypeTag, TypeTag), WidenKernel>)
    ensures r.Keys == widen.Keys + {(FloatScalarT, FloatComplexMatrixT)}
    ensures r[(FloatScalarT, FloatComplexMatrixT)] == FloatComplexMatrixConv
    ensures forall k :: k in widen && k != (FloatScalarT, FloatComplexMatrixT) ==> r[k] == widen[k]
  {
    widen[(FloatScalarT, FloatComplexMatrixT) := FloatComplexMatrixConv]
  }

  /** `install_fs_fcm_ops`: eighteen binary operators, three concatenations,
      two preferred assignment conversions and one widening operator. */
  function Install(ti: TypeInfo): (r: TypeInfo)
    ensures r.binops == InstallFsFcmBinops(ti.binops)
    ensures r.catops == InstallCatops(ti.catops)
    ensures r.assignConv == InstallAssignConv(ti.assignConv)
    ensures r.widenOps == InstallWidenOps(ti.widenOps)
    ensures forall op :: op != StructRef ==> FsFcmKey(op) in r.binops && r.binops[FsFcmKey(op)] == FsFcm(op)
    ensures (FloatScalarT, FloatComplexMatrixT) in r.widenOps
  {
    TypeInfo(
      InstallFsFcmBinops(ti.binops),
      InstallCatops(ti.catops),
      InstallAssignConv(ti.assignConv),
      InstallWidenOps(ti.widenOps))
  }

  /** Into an empty table, `install_fs_fcm_ops` puts exactly eighteen binary operators. */
  lemma BinopCount()
    ensures |InstallFsFcmBinops(map[])| == 18
  {
    InstallOrderContents();
    InstallBinopsSize(map[], InstallOrder);
    InstallBinopsMerges(map[], InstallOrder);
  }

  /** Installed into an empty registry: 18 binary operators, 3 concatenations,
      2 assignment conversions and 1 widening operator. */
  lemma InstallCounts()
    ensures |Install(EmptyTypeInfo).binops| == 18
    ensures |Install(EmptyTypeInfo).catops| == 3
    ensures |Install(EmptyTypeInfo).assignConv| == 2
    ensures |Install(EmptyTypeInfo).widenOps| == 1
  {
    BinopCount();
    CatCount();
    ConvCount();
  }

  lemma CatCount()
    ensures |InstallCatops(map[])| == 3
  {
    var k1, k2, k3 := (FloatScalarT, FloatComplexMatrixT), (ScalarT, FloatComplexMatrixT), (FloatScalarT, ComplexMatrixT);
    assert k1 != k2 && k1 != k3 && k2 != k3;
    assert InstallCatops(map[]).Keys == {k1, k2, k3};
  }

  lemma ConvCount()
    ensures |InstallAssignConv(map[])| == 2
  {
    assert InstallAssignConv(map[]).Keys == {(FloatScalarT, FloatComplexMatrixT), (ScalarT, FloatComplexMatrixT)};
  }

  /** Installing the binary operators twice leaves the table as installing once does. */
  lemma BinopsIdempotent(binops: map<(BinaryOp, TypeTag, TypeTag), BinaryKernel>)
    ensures InstallFsFcmBinops(InstallFsFcmBinops(binops)) == InstallFsFcmBinops(binops)
  {
    var once := InstallFsFcmBinops(binops);
    var twice := InstallFsFcmBinops(once);
    forall k | k in once
      ensures twice[k] == once[k]
    {
      if InstalledKey(k) {
        assert k == FsFcmKey(k.0);
      }
    }
    assert twice.Keys == once.Keys;
  }

  /** Installing twice leaves the registry as installing once does. */
  lemma InstallIdempotent(ti: TypeInfo)
    ensures Install(Install(ti)) == Install(ti)
  {
    BinopsIdempotent(ti.binops);
    assert InstallCatops(InstallCatops(ti.catops)) == InstallCatops(ti.catops);
    assert InstallAssignConv(InstallAssignConv(ti.assignConv)) == InstallAssignConv(ti.assignConv);
    assert InstallWidenOps(InstallWidenOps(ti.widenOps)) == InstallWidenOps(ti.widenOps);
  }

  // ---------------------------------------------------------------------------
  // Kernels

  /** What the model takes as given: IEEE single-precision division of an
      element by a zero scalar, the ordering relations on complex numbers, and
      the foreign routines behind `div`, `pow`, `el_div` and `el_pow`
      (`xdiv` also returns the refined matrix type it computed). */
  datatype Numerics = Numerics(
    overZero: Complex -> Complex,
    order: (BinaryOp, Complex, Complex) -> bool,
    xdiv: (real, NDArray<Complex>, MatrixType) -> (Result<NDArray<Complex>, string>, MatrixType),
    xpow: (real, NDArray<Complex>) -> Result<NDArray<Complex>, string>,
    elemXdiv: (real, NDArray<Complex>) -> NDArray<Complex>,
    elemXpow: (real, NDArray<Complex>) -> NDArray<Complex>)

  /** A kernel's outcome together with the right operand as it is afterwards. */
  datatype KernelResult = KernelResult(value: Result<Value, string>, rhs: Fcm)

  /** `s + m`, the scalar added to every element. */
  function AddScalar(s: real, m: NDArray<Complex>): (r: NDArray<Complex>)
    requires m.Valid()
    ensures r.Valid() && r.dims == m.dims
    ensures forall i :: 0 <= i < |m.data| ==> r.data[i].re - s == m.data[i].re && r.data[i].im == m.data[i].im
  {
    MapElems(m, (z: Complex) => Complex(s + z.re, z.im))
  }

  /** `s - m`, every element subtracted from the scalar. */
  function SubScalar(s: real, m: NDArray<Complex>): (r: NDArray<Complex>)
    requires m.Valid()
    ensures r.Valid() && r.dims == m.dims
    ensures forall i :: 0 <= i < |m.data| ==> r.data[i].re + m.data[i].re == s && r.data[i].im == -m.data[i].im
  {
    MapElems(m, (z: Complex) => Complex(s - z.re, -z.im))
  }

  /** `s * m` and `s .* m`, every element scaled by the scalar. */
  function MulScalar(s: real, m: NDArray<Complex>): (r: NDArray<Complex>)
    requires m.Valid()
    ensures r.Valid() && r.dims == m.dims
    ensures forall i :: 0 <= i < |m.data| ==> r.data[i] == Complex(s * m.data[i].re, s * m.data[i].im)
  {
    MapElems(m, (z: Complex) => Complex(s * z.re, s * z.im))
  }

  /** `s \ m` and `s .\ m`: the matrix divided element-wise by the scalar. */
  function LdivScalar(num: Numerics, s: real, m: NDArray<Complex>): (r: NDArray<Complex>)
    requires m.Valid()
    ensures r.Valid() && r.dims == m.dims
    ensures s != 0.0 ==> forall i :: 0 <= i < |m.data| ==>
              r.data[i].re * s == m.data[i].re && r.data[i].im * s == m.data[i].im
    ensures s == 0.0 ==> forall i :: 0 <= i < |m.data| ==> r.data[i] == num.overZero(m.data[i])
  {
    if s != 0.0 then MapElems(m, (z: Complex) => Complex(z.re / s, z.im / s))
    else MapElems(m, num.overZero)
  }

  /** `s OP m` for the six comparison operators: a boolean array of the matrix's
      shape. Equality is exact; the orderings are taken from `num`. */
  function CompareScalar(num: Numerics, op: BinaryOp, s: real, m: NDArray<Complex>): (r: NDArray<bool>)
    requires op in {Lt, Le, Eq, Ge, Gt, Ne}
    requires m.Valid()
    ensures r.Valid() && r.dims == m.dims
    ensures op == Eq ==> forall i :: 0 <= i < |m.data| ==> (r.data[i] <==> m.data[i] == FromReal(s))
    ensures op == Ne ==> forall i :: 0 <= i < |m.data| ==> (r.data[i] <==> m.data[i] != FromReal(s))
    ensures op !in {Eq, Ne} ==> forall i :: 0 <= i < |m.data| ==> r.data[i] == num.order(op, FromReal(s), m.data[i])
  {
    MapElems(m, (z: Complex) =>
      if op == Eq then FromReal(s) == z
      else if op == Ne then FromReal(s) != z
      else num.order(op, FromReal(s), z))
  }

  /** `s & m` and `s | m`: element `i` is `(s != 0) OP (m[i] != 0)`. */
  function LogicalScalar(op: BinaryOp, s: real, m: NDArray<Complex>): (r: NDArray<bool>)
    requires op in {ElAnd, ElOr}
    requires m.Valid()
    ensures r.Valid() && r.dims == m.dims
    ensures op == ElAnd ==> forall i :: 0 <= i < |m.data| ==> (r.data[i] <==> s != 0.0 && NonZero(m.data[i]))
    ensures op == ElOr ==> forall i :: 0 <= i < |m.data| ==> (r.data[i] <==> s != 0.0 || NonZero(m.data[i]))
  {
    MapElems(m, (z: Complex) => if op == ElAnd then s != 0.0 && NonZero(z) else s != 0.0 || NonZero(z))
  }

  /** `s / m`: the foreign solver's result; on success the right operand's
      cached matrix type becomes the type the solver determined. */
  function DivKernel(num: Numerics, s: real, b: Fcm): (r: KernelResult)
    ensures r.rhs.m == b.m
    ensures r.value.Ok? <==> num.xdiv(s, b.m, b.typ).0.Ok?
    ensures r.value.Err? ==> r.rhs == b
    ensures r.value.Ok? ==> r.rhs.typ == num.xdiv(s, b.m, b.typ).1
  {
    var (res, typ) := num.xdiv(s, b.m, b.typ);
    if res.Ok? then KernelResult(Ok(ComplexArray(res.value)), Fcm(b.m, typ))
    else KernelResult(Err(res.error), b)
  }

  /** Runs the kernel this file defines for `op` on `(s, b)`. */
  function Apply(num: Numerics, op: BinaryOp, s: real, b: Fcm): (r: KernelResult)
    requires op != StructRef
    requires b.m.Valid()
    ensures r.rhs.m == b.m
    ensures op != Div ==> r.rhs == b
    ensures op in {Add, Sub, Mul, Ldiv, ElMul, ElLdiv} ==>
              r.value.Ok? && r.value.value.ComplexArray? && r.value.value.c.dims == b.m.dims
    ensures op in {Lt, Le, Eq, Ge, Gt, Ne, ElAnd, ElOr} ==>
              r.value.Ok? && r.value.value.BoolArray? && r.value.value.b.dims == b.m.dims
  {
    match op
    case Add => KernelResult(Ok(ComplexArray(AddScalar(s, b.m))), b)
    case Sub => KernelResult(Ok(ComplexArray(SubScalar(s, b.m))), b)
    case Mul => KernelResult(Ok(ComplexArray(MulScalar(s, b.m))), b)
    case Div => DivKernel(num, s, b)
    case Pow =>
      var p := num.xpow(s, b.m);
      KernelResult(if p.Ok? then Ok(ComplexArray(p.value)) else Err(p.error), b)
    case Ldiv => KernelResult(Ok(ComplexArray(LdivScalar(num, s, b.m))), b)
    case Lt => KernelResult(Ok(BoolArray(CompareScalar(num, op, s, b.m))), b)
    case Le => KernelResult(Ok(BoolArray(CompareScalar(num, op, s, b.m))), b)
    case Eq => KernelResult(Ok(BoolArray(CompareScalar(num, op, s, b.m))), b)
    case Ge => KernelResult(Ok(BoolArray(CompareScalar(num, op, s, b.m))), b)
    case Gt => KernelResult(Ok(BoolArray(CompareScalar(num, op, s, b.m))), b)
    case Ne => KernelResult(Ok(BoolArray(CompareScalar(num, op, s, b.m))), b)
    case ElMul => KernelResult(Ok(ComplexArray(MulScalar(s, b.m))), b)
    case ElDiv => KernelResult(Ok(ComplexArray(num.elemXdiv(s, b.m))), b)
    case ElPow => KernelResult(Ok(ComplexArray(num.elemXpow(s, b.m))), b)
    case ElLdiv => KernelResult(Ok(ComplexArray(LdivScalar(num, s, b.m))), b)
    case ElAnd => KernelResult(Ok(BoolArray(LogicalScalar(op, s, b.m))), b)
    case ElOr => KernelResult(Ok(BoolArray(LogicalScalar(op, s, b.m))), b)
  }

  /** Looks up `(op, t1, t2)` and runs the kernel found there when it is one
      of this file's; `None` when there is no entry or it is defined elsewhere. */
  function Dispatch(ti: TypeInfo, num: Numerics, op: BinaryOp, t1: TypeTag, t2: TypeTag, s: real, b: Fcm): (r: Option<KernelResult>)
    requires b.m.Valid()
    ensures r.Some? <==> (op, t1, t2) in ti.binops && ti.binops[(op, t1, t2)].FsFcm? && ti.binops[(op, t1, t2)].op != StructRef
    ensures r.Some? ==> r.value == Apply(num, ti.binops[(op, t1, t2)].op, s, b)
  {
    if (op, t1, t2) in ti.binops && ti.binops[(op, t1, t2)].FsFcm? && ti.binops[(op, t1, t2)].op != StructRef
    then Some(Apply(num, ti.binops[(op, t1, t2)].op, s, b))
    else None
  }

  /** `float_complex_matrix_conv`: a float scalar widened to a 1x1 float
      complex matrix holding `s + 0i`. */
  function Widen(s: real): (r: Fcm)
    ensures r.m.Valid() && r.m.dims == [1, 1]
    ensures r.m.data == [FromReal(s)]
  {
    NumelOfMatrix(1, 1);
    Fcm(NDArray([1, 1], [FromReal(s)]), MatrixType(0))
  }

  // ---------------------------------------------------------------------------
  // Properties

  /** After installation every one of the eighteen operators dispatches on
      `(float_scalar, float_complex_matrix)` to the kernel for that operator. */
  lemma DispatchAfterInstall(ti: TypeInfo, num: Numerics, op: BinaryOp, s: real, b: Fcm)
    requires op != StructRef && b.m.Valid()
    ensures Dispatch(Install(ti), num, op, FloatScalarT, FloatComplexMatrixT, s, b) == Some(Apply(num, op, s, b))
  {
    var table := InstallFsFcmBinops(ti.binops);
    assert (op, FloatScalarT, FloatComplexMatrixT) in table && table[FsFcmKey(op)] == FsFcm(op);
  }

  /** Subtracting from the same scalar twice gives back the matrix. */
  lemma SubInvolutive(s: real, m: NDArray<Complex>)
    requires m.Valid()
    ensures SubScalar(s, SubScalar(s, m)) == m
  {
    Extensional(SubScalar(s, SubScalar(s, m)), m);
  }

  /** Subtracting `s + m` from `s` leaves `-m`. */
  lemma AddThenSub(s: real, m: NDArray<Complex>)
    requires m.Valid()
    ensures SubScalar(s, AddScalar(s, m)) == MulScalar(-1.0, m)
  {
    Extensional(SubScalar(s, AddScalar(s, m)), MulScalar(-1.0, m));
  }

  lemma RealQuotient(x: real, s: real)
    requires s != 0.0
    ensures (s * x) / s == x
    ensures x / s == (1.0 / s) * x
  {
  }

  /** For a non-zero scalar, left division undoes multiplication, and both
      left divisions agree with multiplying by the reciprocal. */
  lemma LdivUndoesMul(num: Numerics, s: real, m: NDArray<Complex>)
    requires m.Valid() && s != 0.0
    ensures LdivScalar(num, s, MulScalar(s, m)) == m
    ensures LdivScalar(num, s, m) == MulScalar(1.0 / s, m)
  {
    forall i | 0 <= i < |m.data|
      ensures LdivScalar(num, s, MulScalar(s, m)).data[i] == m.data[i]
      ensures LdivScalar(num, s, m).data[i] == MulScalar(1.0 / s, m).data[i]
    {
      RealQuotient(m.data[i].re, s);
      RealQuotient(m.data[i].im, s);
    }
    Extensional(LdivScalar(num, s, MulScalar(s, m)), m);
    Extensional(LdivScalar(num, s, m), MulScalar(1.0 / s, m));
  }

  /** `ldiv` and `el_ldiv` compute the same result, as do `mul` and `el_mul`. */
  lemma MatrixAndElementwiseAgree(num: Numerics, s: real, b: Fcm)
    requires b.m.Valid()
    ensures Apply(num, Ldiv, s, b) == Apply(num, ElLdiv, s, b)
    ensures Apply(num, Mul, s, b) == Apply(num, ElMul, s, b)
  {
  }

  /** `eq` and `ne` are complementary. */
  lemma EqNeComplement(num: Numerics, s: real, m: NDArray<Complex>)
    requires m.Valid()
    ensures forall i :: 0 <= i < |m.data| ==>
              CompareScalar(num, Ne, s, m).data[i] == !CompareScalar(num, Eq, s, m).data[i]
  {
  }

  /** A zero scalar makes `and` all false; a non-zero scalar makes `or` all true. */
  lemma LogicalAbsorbing(s: real, m: NDArray<Complex>)
    requires m.Valid()
    ensures s == 0.0 ==> forall i :: 0 <= i < |m.data| ==> !LogicalScalar(ElAnd, s, m).data[i]
    ensures s != 0.0 ==> forall i :: 0 <= i < |m.data| ==> LogicalScalar(ElOr, s, m).data[i]
  {
  }

  /** Widening then adding agrees with adding the two real scalars: the
      imaginary part stays zero. */
  lemma WidenThenAdd(s: real, t: real)
    ensures AddScalar(s, Widen(t).m) == NDArray([1, 1], [FromReal(s + t)])
  {
    Extensional(AddScalar(s, Widen(t).m), NDArray([1, 1], [FromReal(s + t)]));
  }

  /** The 2x2 complex matrix with every element `1+1i`. */
  function OnesPlusI(): (b: Fcm)
    ensures b.m.Valid() && b.m.dims == [2, 2]
    ensures forall i :: 0 <= i < |b.m.data| ==> b.m.data[i] == Complex(1.0, 1.0)
  {
    NumelOfMatrix(2, 2);
    Fcm(NDArray([2, 2], [Complex(1.0, 1.0), Complex(1.0, 1.0), Complex(1.0, 1.0), Complex(1.0, 1.0)]), MatrixType(0))
  }

  /** Adding the real scalar 2 to the 2x2 matrix of `1+1i` through the
      registry gives `3+1i` in every element, not a real-only `3`. */
  lemma AddExample(num: Numerics)
    ensures var r := Dispatch(Install(EmptyTypeInfo), num, Add, FloatScalarT, FloatComplexMatrixT, 2.0, OnesPlusI());
            r.Some? && r.value.value.Ok? && r.value.value.value.ComplexArray? &&
            r.value.value.value.c.dims == [2, 2] &&
            forall i :: 0 <= i < |r.value.value.value.c.data| ==> r.value.value.value.c.data[i] == Complex(3.0, 1.0)
  {
    var b := OnesPlusI();
    DispatchAfterInstall(EmptyTypeInfo, num, Add, 2.0, b);
    assert Apply(num, Add, 2.0, b).value == Ok(ComplexArray(AddScalar(2.0, b.m)));
  }
}
