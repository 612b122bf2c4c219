# A Dafny model of five pieces of Octave's core

This project models, as pure functions over immutable values, five pieces of
GNU Octave and proves properties of each:

- **`DiagArray2<T>`** (module `DiagArrays`, `diag_array2.dfy`). A logical
  rows x cols matrix that stores only its leading diagonal. It covers the
  constructors, the shape queries (`dims`, `length`, `nelem`, `byte_size`),
  the const reads, and the `Proxy` handle returned by the non-const `elem`,
  `checkelem` and `operator ()`. Off-diagonal positions read as zero, and
  writing one is reported through the error handler. An out-of-range access
  reports a range error and yields a null handle. A call to the error handler
  is modelled as a message appended to `Handled.raised` (`outcomes.dfy`),
  after which execution continues as in the C++ code.
- **N-d index arithmetic** (module `ArrayUtil`, `array_util.dfy`).
  `index_in_bounds`, the four `compute_index` overloads (column-major linear
  index, or an out-of-range error naming the first bad position),
  `increment_index` (an odometer over the dimensions, from a chosen start
  dimension), `get_ra_idx` (the inverse of `compute_index`), `num_ones`,
  `is_scalar`, `isvector`, `any_ones`, `all_ones` and `all_ok`. A `dim_vector`
  is a `seq<nat>` of length at least 2.
- **Element-wise `int8NDArray` operators** (module `Int8Arrays`,
  `int8_nd_array.dfy`, over the plain arrays of `arrays.dfy`). These are the
  six comparisons and the two boolean operators, for array/scalar,
  scalar/array and array/array operands. The array/array forms report
  "nonconformant arguments" on a shape mismatch.
- **The `float_scalar` x `float_complex_matrix` operator set** (module
  `FsFcmOps`, `op_fs_fcm.dfy`):
  - the eighteen binary kernels;
  - their registration in the type-info tables (binary operators,
    concatenation, assignment conversion, widening), including idempotence of
    installation;
  - lookup of an installed kernel;
  - the widening conversion.

  Complex numbers carry exact `real` parts. Matrix division, powers and the
  ordering of complex numbers are supplied as parameters (`Numerics`).
- **Directory defaults** (module `Defaults`, `defaults.dfy`):
  - `set_octave_home`;
  - `prepend_home_dir` with its separator conversion;
  - `init_defaults` (30 directory variables, each rooted at `OCTAVE_HOME` or
    `OCTAVE_EXEC_HOME`);
  - the site start-up files and the five `set_default_*` helpers;
  - `install_defaults`;
  - the lazily initialising getters.

  The environment is a `map<string, string>`. The platform (directory
  separator, `absolute_pathname`) is a parameter. Configure-time values are a
  `Configure` record. The global variables are one `State` value, so "runs
  once" and idempotence become equalities between states.

### Behaviour worth noting

- Scalar-by-matrix `div` (`s / M`, op-fs-fcm.cc lines 58-71) is a matrix
  right division through the linear solver `xdiv`, not an element-wise
  quotient. It also writes the computed `MatrixType` back into the right
  operand. The model does the same (`FsFcmOps.DivKernel`).
- `ldiv` and `el_ldiv` (`s \ M`, lines 75-81 and 103-109) both divide every
  element of `M` by `s`. They are the same function
  (`FsFcmOps.MatrixAndElementwiseAgree`).
- When `OCTAVE_SITE_INITFILE` / `OCTAVE_VERSION_INITFILE` are unset, the site
  start-up file names are built with a literal `"/octaverc"`. Unlike the
  directories, they do not go through the separator conversion
  (`Defaults.SeparatorsConverted` proves a `'/'` survives there).
- The functions declared in Array-util.h are defined in Array-util.cc, and
  the model follows those definitions. `compute_index` folds trailing
  dimensions into the last subscript through `dim_vector::redim`. `isvector`
  is a counting rule, not the two-dimensional rule of the user-level
  `isvector`: an extent above 1 counts 1, a zero extent counts 2, and the
  shape is a vector when the total is below 2. So `[1, 1, 5]` is a vector and
  `[1, 0]` is not.
- The two- and three-subscript `compute_index` overloads check the signs of
  all subscripts before any range, while the general form checks one
  position at a time. They accept the same subscripts, but can report
  different errors: on a 2x3 shape, `(5, -1)` is reported as an invalid
  second subscript by the two-subscript overload and as an out-of-range
  first subscript by the general form (`ArrayUtil.ComputeIndex2ErrorExample`).

## Model

| member | source | states |
|---|---|---|
| `ArrayUtil.IndexInBounds` | liboctave/array/Array-util.h:34-35 | true exactly when there is one subscript per dimension and each lies in [0, extent); when true, the column-major offset is below the element count |
| `ArrayUtil.IncrementIndex` | liboctave/array/Array-util.h:37-39 | keeps the subscript count and leaves positions below the start dimension untouched |
| `ArrayUtil.IncrementAdvances` | liboctave/array/Array-util.h:37-39 | from subscripts in odometer form (every subscript but the last below its extent), one increment advances the column-major offset by exactly the stride of the start dimension and stays in odometer form |
| `ArrayUtil.IncrementExamples` | liboctave/array/Array-util.h:37-39 | concrete carries on a 2x3 shape: [0,0] steps to [1,0], [1,0] carries to [0,1], and [1,2] carries into the last subscript, giving [0,3] |
| `ArrayUtil.NumOnes` | liboctave/array/Array-util.h:44-45 | the count equals the multiplicity of 1 among the entries |
| `ArrayUtil.IsScalar` | liboctave/array/Array-util.h:47 | true exactly when every extent is 1 |
| `ArrayUtil.IsVector` | liboctave/array/Array-util.h:49 | true exactly when no extent is zero and at most one extent exceeds 1 |
| `ArrayUtil.ScalarIsVector` | liboctave/array/Array-util.h:47-49 | every scalar shape is also a vector shape |
| `ArrayUtil.AnyOnes` | liboctave/array/Array-util.h:51 | true exactly when some entry is 1 |
| `ArrayUtil.ComputeIndex1` | liboctave/array/Array-util.h:55-56 | a single linear subscript is accepted exactly when 0 <= n < numel, and is then returned unchanged |
| `ArrayUtil.ComputeIndex1Agrees` | liboctave/array/Array-util.h:55-56 | the one-subscript overload agrees with the general one on `[n]`, its error included |
| `ArrayUtil.ComputeIndex2` | liboctave/array/Array-util.h:58-59 | succeeds exactly when i < dims[0] and j < the product of the remaining extents (trailing dimensions folded into the column subscript); the result is then j * dims[0] + i, below the element count |
| `ArrayUtil.ComputeIndex2Agrees` | liboctave/array/Array-util.h:58-59 | the two-subscript overload accepts the same subscripts as the general one on `[i, j]` and returns the same offset; the error reported can differ, and does exactly when `i` is past its extent and `j` is negative |
| `ArrayUtil.ComputeIndex3` | liboctave/array/Array-util.h:61-63 | succeeds exactly when i < dims[0], j < dims[1] and k < the product of the remaining extents (dimensions from the third on folded into the page subscript); the result is then (k * dims[1] + j) * dims[0] + i, below the element count |
| `ArrayUtil.ComputeIndex3Agrees` | liboctave/array/Array-util.h:61-63 | the three-subscript overload accepts the same subscripts as the general one on `[i, j, k]` and returns the same offset; the error reported can differ, and does exactly when a subscript past its extent comes before a negative one |
| `ArrayUtil.ComputeIndex` | liboctave/array/Array-util.h:65-66 | succeeds exactly when the subscripts are in bounds of the dimensions folded to their count; the result is then the column-major offset of the subscripts in those folded dimensions, below the element count, and for a full subscript list the offset in the dimensions themselves; an error names the first (1-based) position whose subscript is negative (an invalid index) or past its extent (out of range), every earlier subscript being in range |
| `ArrayUtil.ComputeIndex2ErrorExample` | liboctave/array/Array-util.h:58-59 | on a 2x3 shape, `(5, -1)` is an invalid (negative) second subscript for the two-subscript overload but an out-of-range first subscript for the general form |
| `ArrayUtil.ComputeIndexRoundTrip` | liboctave/array/Array-util.h:65-66 | `get_ra_idx(compute_index(s)) == s` for every in-bounds full subscript list |
| `ArrayUtil.AllOk` | liboctave/array/Array-util.h:80-81 | always true, for any index list |
| `ArrayUtil.AllOnes` | liboctave/array/Array-util.h:90 | true exactly when every entry is 1 |
| `ArrayUtil.GetRaIdx` | liboctave/array/Array-util.h:96-97 | one subscript per dimension; for a linear index below the element count the subscripts are in bounds and their column-major offset is that index |
| `ArrayUtil.GetRaIdxRoundTrip` | liboctave/array/Array-util.h:96-97 | for every linear index below the element count, `get_ra_idx` yields in-bounds subscripts that `compute_index` maps back to the same index |
| `DiagArrays.Empty` | liboctave/DiagArray2.h:120 | a 0 x 0 array with an empty store |
| `DiagArrays.Sized` | liboctave/DiagArray2.h:122-123 | an r x c array storing min(r, c) elements |
| `DiagArrays.Filled` | liboctave/DiagArray2.h:125-130 | an r x c array whose every stored diagonal element is `val` |
| `DiagArrays.FilledReads` | liboctave/DiagArray2.h:125-130 | a filled array reads `val` on the diagonal and zero off it |
| `DiagArrays.FromArray` | liboctave/DiagArray2.h:132-133 | a plain array of length n becomes an n x n array whose diagonal is that array |
| `DiagArrays.FromArrayReads` | liboctave/DiagArray2.h:132-133 | element (i, j) of the result is a[i] when i == j and zero otherwise |
| `DiagArrays.Convert` | liboctave/DiagArray2.h:138-140 | same shape, each diagonal element converted |
| `DiagArrays.ConvertReads` | liboctave/DiagArray2.h:138-140 | reading a converted array equals converting the read, when the conversion maps zero to zero |
| `DiagArrays.DiagArray2.Dims` | liboctave/DiagArray2.h:166 | the full logical shape [rows, cols], not the store's length |
| `DiagArrays.DiagArray2.Length` | liboctave/DiagArray2.h:160 | the number of stored elements, min(rows, cols), at most each of rows and cols |
| `DiagArrays.DiagArray2.Nelem` | liboctave/DiagArray2.h:161-162 | rows x cols, zero exactly when rows or cols is zero, and never below `length` |
| `DiagArrays.DiagArray2.ByteSize` | liboctave/DiagArray2.h:164 | the storage of the diagonal only: min(rows, cols) times the element size |
| `DiagArrays.ShapeCounts` | liboctave/DiagArray2.h:153-166 | `nelem` is rows x cols, `length` (the diagonal) never exceeds it, and both are zero together |
| `DiagArrays.ElemProxy` | liboctave/DiagArray2.h:170-173 | the non-const `elem` returns a bound handle to (r, c) with no check; in range it is the same handle `checkelem` returns |
| `DiagArrays.UncheckedHandle` | liboctave/DiagArray2.h:170-173 | through the unchecked handle a read equals the const `elem`, a diagonal write replaces only that slot with no report, and an off-diagonal write reports the off-diagonal error and changes nothing |
| `DiagArrays.Elem` | liboctave/DiagArray2.h:197-200 | zero off the diagonal, and within the shape the same value the checked `operator ()` reads |
| `DiagArrays.ProxyRead` | liboctave/DiagArray2.h:83-92 | a bound handle on the diagonal reads its stored slot; a null or off-diagonal handle reads the default element |
| `DiagArrays.CheckElem` | liboctave/DiagArray2.h:175-184 | a range error is raised exactly when (r, c) is outside the shape, and the handle is then null |
| `DiagArrays.CheckedRead` | liboctave/DiagArray2.h:186-195 | reading `a(r, c)` raises a range error exactly when out of shape and yields the stored element on an in-range diagonal, the default element otherwise |
| `DiagArrays.ProxyAssign` | liboctave/DiagArray2.h:69-81 | assigning through a handle changes only slot i on the diagonal, nothing through a null handle, and off the diagonal reports the off-diagonal error and changes nothing |
| `DiagArrays.CheckedAssign` | liboctave/DiagArray2.h:186-195 | `a(r, c) = v` succeeds exactly on an in-range diagonal position and then replaces that slot only; on any error the array is unchanged |
| `DiagArrays.OffDiagonalReadsZero` | liboctave/DiagArray2.h:197-200 | an in-range off-diagonal position reads zero through both the const and the checked accessor, without an error |
| `DiagArrays.DiagonalReadsStore` | liboctave/DiagArray2.h:220-223 | an in-range diagonal position reads its stored slot through both accessors |
| `DiagArrays.OffDiagonalWriteRejected` | liboctave/DiagArray2.h:69-81 | writing an in-range off-diagonal position raises exactly the off-diagonal error and leaves the array unchanged |
| `DiagArrays.WriteThenRead` | liboctave/DiagArray2.h:69-75 | after a diagonal write, position (i, i) reads the written value and every other position reads what it read before |
| `DiagArrays.OutOfRangeAccess` | liboctave/DiagArray2.h:83-92 | out of shape, a read yields the default element with a range error; a write changes nothing and adds the off-diagonal error when r != c |
| `Int8Arrays.CmpArrayScalar` | liboctave/int8NDArray.cc:48 | same shape as the array; element i is `m[i] OP s` |
| `Int8Arrays.BoolArrayScalar` | liboctave/int8NDArray.cc:49 | same shape; element i is `(m[i] != 0) OP (s != 0)` |
| `Int8Arrays.CmpScalarArray` | liboctave/int8NDArray.cc:51 | same shape; element i is `s OP m[i]` |
| `Int8Arrays.BoolScalarArray` | liboctave/int8NDArray.cc:52 | same shape; element i is `(s != 0) OP (m[i] != 0)` |
| `Int8Arrays.CmpArrays` | liboctave/int8NDArray.cc:54 | succeeds exactly when the shapes are equal, giving element-wise `a[i] OP b[i]`; otherwise a nonconformant error naming the operator and both shapes |
| `Int8Arrays.BoolArrays` | liboctave/int8NDArray.cc:55 | succeeds exactly when the shapes are equal, giving element-wise truth-value `and`/`or`; otherwise a nonconformant error |
| `Int8Arrays.ScalarArrayIsConverse` | liboctave/int8NDArray.cc:48-51 | `s OP m` equals `m OP' s` for the converse relation OP' |
| `Int8Arrays.NegationComplements` | liboctave/int8NDArray.cc:48 | the negated relation yields the element-wise complement |
| `Int8Arrays.ConstantOperand` | liboctave/int8NDArray.cc:48-55 | array/array against a constant array of the same shape equals array/scalar, for comparisons and both boolean operators |
| `Int8Arrays.BoolSeesOnlyZeros` | liboctave/int8NDArray.cc:49-52 | the boolean results depend only on which operands are zero |
| `Int8Arrays.BoolSymmetric` | liboctave/int8NDArray.cc:49-52 | scalar/array and array/scalar `and`/`or` coincide |
| `Int8Arrays.BoolAbsorbing` | liboctave/int8NDArray.cc:49 | a zero scalar makes `and` false everywhere; a non-zero one makes `or` true everywhere |
| `Int8Arrays.ShapeMismatch` | liboctave/int8NDArray.cc:54-55 | comparisons and boolean operators fail on exactly the same shape pairs |
| `Int8Arrays.SelfComparison` | liboctave/int8NDArray.cc:54 | an array compared with itself succeeds, with eq/le/ge true and ne/lt/gt false everywhere |
| `FsFcmOps.AddScalar` | libinterp/operators/op-fs-fcm.cc:51-52 | each element's real part exceeds the matrix element's by s; imaginary parts are kept |
| `FsFcmOps.SubScalar` | libinterp/operators/op-fs-fcm.cc:53-54 | result plus matrix element equals s in the real part; the imaginary part is negated |
| `FsFcmOps.MulScalar` | libinterp/operators/op-fs-fcm.cc:55-56 | both parts of each element are scaled by s, shape kept |
| `FsFcmOps.DivKernel` | libinterp/operators/op-fs-fcm.cc:58-71 | succeeds exactly when the solver does; the right operand's elements are never changed, and on success its matrix type becomes the one the solver computed |
| `FsFcmOps.LdivScalar` | libinterp/operators/op-fs-fcm.cc:75-81 | for s != 0, result times s is the matrix element; for s == 0 the division-by-zero rule applies |
| `FsFcmOps.CompareScalar` | libinterp/operators/op-fs-fcm.cc:83-94 | eq/ne compare s with the element exactly (imaginary part zero and real part equal); the orderings follow the supplied complex ordering |
| `FsFcmOps.LogicalScalar` | libinterp/operators/op-fs-fcm.cc:111-114 | `and`/`or` of the truth values of s and of each element |
| `FsFcmOps.Apply` | libinterp/operators/op-fs-fcm.cc:51-114 | every kernel leaves the matrix's elements unchanged, only `div` may change its matrix type, and arithmetic kernels return complex arrays while comparison and logical kernels return boolean arrays of the same shape |
| `FsFcmOps.MatrixAndElementwiseAgree` | libinterp/operators/op-fs-fcm.cc:96-109 | `ldiv` equals `el_ldiv` and `mul` equals `el_mul` |
| `FsFcmOps.LdivUndoesMul` | libinterp/operators/op-fs-fcm.cc:75-81 | for s != 0, `s \ (s * M) == M` |
| `FsFcmOps.SubInvolutive` | libinterp/operators/op-fs-fcm.cc:53-54 | `s - (s - M) == M` |
| `FsFcmOps.AddThenSub` | libinterp/operators/op-fs-fcm.cc:51-54 | `s - (s + M) == -M` |
| `FsFcmOps.EqNeComplement` | libinterp/operators/op-fs-fcm.cc:87-94 | `ne` is the element-wise negation of `eq` |
| `FsFcmOps.LogicalAbsorbing` | libinterp/operators/op-fs-fcm.cc:111-114 | `0 & M` is false and `s | M` with s != 0 is true everywhere |
| `FsFcmOps.Widen` | libinterp/operators/op-fs-fcm.cc:125-131 | a float scalar widens to the 1x1 complex matrix holding it with zero imaginary part |
| `FsFcmOps.WidenThenAdd` | libinterp/operators/op-fs-fcm.cc:125-131 | `s + widen(t)` holds the single value s + t |
| `FsFcmOps.InstallOrderContents` | libinterp/operators/op-fs-fcm.cc:136-171 | the eighteen registered operators are pairwise distinct and are every binary operator except struct reference |
| `FsFcmOps.InstallBinops` | libinterp/operators/op-fs-fcm.cc:136-171 | registering the operators one by one adds exactly their keys, each bound to its own kernel, and keeps every other entry |
| `FsFcmOps.InstallBinopsSize` | libinterp/operators/op-fs-fcm.cc:136-171 | registering n distinct fresh keys grows the table by exactly n |
| `FsFcmOps.InstallBinopsMerges` | libinterp/operators/op-fs-fcm.cc:136-171 | the sequence of eighteen single registrations equals one simultaneous update of the table |
| `FsFcmOps.InstallFsFcmBinops` | libinterp/operators/op-fs-fcm.cc:136-171 | afterwards every (op, float_scalar, float_complex_matrix) key except struct reference maps to its kernel, and all other keys are unchanged |
| `FsFcmOps.BinopCount` | libinterp/operators/op-fs-fcm.cc:136-171 | on an empty table exactly eighteen binary kernels are installed |
| `FsFcmOps.DispatchAfterInstall` | libinterp/operators/op-fs-fcm.cc:136-171 | after installation, looking up any of the eighteen operators for these operand types runs that operator's kernel |
| `FsFcmOps.AddExample` | libinterp/operators/op-fs-fcm.cc:51-52 | on the installed table, 2 + [1+1i ...] dispatches to add and gives 3+1i everywhere |
| `FsFcmOps.InstallCatops` | libinterp/operators/op-fs-fcm.cc:173-175 | installs exactly the three concatenation kernels and keeps other entries |
| `FsFcmOps.CatCount` | libinterp/operators/op-fs-fcm.cc:173-175 | three concatenation entries on an empty table |
| `FsFcmOps.InstallAssignConv` | libinterp/operators/op-fs-fcm.cc:177-180 | float scalar into float complex matrix stays float complex; double scalar into it becomes complex matrix; other entries kept |
| `FsFcmOps.ConvCount` | libinterp/operators/op-fs-fcm.cc:177-180 | two assignment conversions on an empty table |
| `FsFcmOps.InstallWidenOps` | libinterp/operators/op-fs-fcm.cc:182-183 | installs the one widening conversion and keeps other entries |
| `FsFcmOps.Install` | libinterp/operators/op-fs-fcm.cc:133-184 | updates the four tables by their four installation steps; afterwards every operator but struct reference is bound on (float_scalar, float_complex_matrix) and the widening entry is present |
| `FsFcmOps.Dispatch` | libinterp/operators/op-fs-fcm.cc:136-171 | finds a kernel exactly when the table binds the key to one of this file's kernels, and then runs that kernel |
| `FsFcmOps.InstallCounts` | libinterp/operators/op-fs-fcm.cc:133-184 | on empty tables installation registers 18 binary, 3 concatenation, 2 assignment-conversion and 1 widening entries |
| `FsFcmOps.BinopsIdempotent` | libinterp/operators/op-fs-fcm.cc:136-171 | installing the binary kernels twice gives the same table as once |
| `FsFcmOps.InstallIdempotent` | libinterp/operators/op-fs-fcm.cc:133-184 | running the whole installation twice gives the same tables as once |
| `Defaults.ReplaceSlashes` | libinterp/corefcn/defaults.in.cc:298-299 | same length, every '/' replaced by the separator and every other character kept |
| `Defaults.ReplaceIdempotent` | libinterp/corefcn/defaults.in.cc:298-299 | converting separators twice is converting once |
| `Defaults.PrependHomeDir` | libinterp/corefcn/defaults.in.cc:288-302 | an absolute path is kept and a relative one gets `home + sep` in front; with a separator other than '/', no '/' remains |
| `Defaults.PrependKeepsName` | libinterp/corefcn/defaults.in.cc:288-302 | with '/' as separator a relative path ends the result unchanged, just after `home/` |
| `Defaults.SetOctaveHome` | libinterp/corefcn/defaults.in.cc:316-344 | OCTAVE_HOME from the environment wins over the prefix; OCTAVE_EXEC_HOME wins over everything; otherwise the exec home follows OCTAVE_HOME only when the two configured prefixes are equal |
| `Defaults.SinglePrefixOneRoot` | libinterp/corefcn/defaults.in.cc:335-343 | with equal configured prefixes and no OCTAVE_EXEC_HOME, both homes are the same directory |
| `Defaults.UnsetEnvUsesPrefixes` | libinterp/corefcn/defaults.in.cc:322-343 | with neither variable set, the homes are the configured prefixes |
| `Defaults.SiteDefaultsFile` | libinterp/corefcn/defaults.in.cc:346-366 | a set environment variable names the file; otherwise it is `octaverc` under the start-up directory |
| `Defaults.InitDefaults` | libinterp/corefcn/defaults.in.cc:368-423 | a second call changes nothing; a first call sets both homes, roots each of the 30 directories at its home through `prepend_home_dir`, sets the man extension and site files, marks the state initialised and touches nothing else |
| `Defaults.InitIdempotent` | libinterp/corefcn/defaults.in.cc:371-372 | initialising twice is initialising once, whatever the environment on the second call |
| `Defaults.SeparatorsConverted` | libinterp/corefcn/defaults.in.cc:378-420 | with a separator other than '/', no directory contains '/', but the default local site file still does |
| `Defaults.SetDefaultInfoFile` | libinterp/corefcn/defaults.in.cc:425-436 | an already-set info file is kept; otherwise `OCTAVE_INFO_FILE` from the environment, else the configured file |
| `Defaults.SetDefaultInfoProg` | libinterp/corefcn/defaults.in.cc:438-450 | an already-set program is kept; otherwise `OCTAVE_INFO_PROGRAM`, else "info"; never empty afterwards |
| `Defaults.SetDefaultTexiMacrosFile` | libinterp/corefcn/defaults.in.cc:452-463 | an already-set file is kept; otherwise `OCTAVE_TEXI_MACROS_FILE`, else the configured file |
| `Defaults.SetDefaultDocCacheFile` | libinterp/corefcn/defaults.in.cc:465-476 | an already-set file is kept; otherwise `OCTAVE_DOC_CACHE_FILE`, else the configured file |
| `Defaults.SetBuiltInDocstringsFile` | libinterp/corefcn/defaults.in.cc:478-491 | an already-set file is kept; otherwise `OCTAVE_BUILT_IN_DOCSTRINGS_FILE`, else `built-in-docstrings` in the etc directory after the platform separator |
| `Defaults.InstallDefaults` | libinterp/corefcn/defaults.in.cc:493-508 | leaves the state initialised, with every directory as `init_defaults` sets it; already-set files and program are kept; an empty one is filled from its environment variable when that is set, and otherwise the info, texi-macros and doc-cache files become the configured file under the home, the info program becomes `"info"`, and the built-in docstrings file becomes the etc directory, the separator and `built-in-docstrings` |
| `Defaults.InstallIdempotent` | libinterp/corefcn/defaults.in.cc:493-508 | installing twice is installing once |
| `Defaults.Get` | libinterp/corefcn/defaults.in.cc:510-513 | a getter initialises first when needed, then returns the field from the initialised state |
| `Defaults.GetStable` | libinterp/corefcn/defaults.in.cc:525-568 | two successive getter calls return the same value and leave the same state |
| `Defaults.GetOnFresh` | libinterp/corefcn/defaults.in.cc:525-549 | on a fresh state a directory getter returns the directory that `init_defaults` computes |
| `Defaults.GetAgreesWithInstall` | libinterp/corefcn/defaults.in.cc:493-513 | after `install_defaults`, a getter returns the installed value and changes nothing; a getter run first reports the same value |

## Left out

- Integer width: `octave_idx_type` and `size_t` arithmetic (`nelem`, `byte_size`, linear indices) is unbounded here. Overflow of very large shapes is not modelled.
- `ArrayUtil.ComputeIndex`: requires at least one subscript, because the model's `Redim` covers `dim_vector::redim` for one or more dimensions only.
- `get_scalar_idx`, `conv_to_int_array`, `conv_to_array`, `freeze`, `vector_equivalent`, `any_orig_empty`, `all_colon_equiv`, `get_elt_idx`, `zero_dims_inquire`, `sub2ind`, `ind2sub` and `permute_vector_compare` are left out. They work on `idx_vector` objects, which are not part of this model.
- `DiagArray2`: `resize`, `transpose`, `hermitian`, `diag (k)`, `data`/`fortran_vec`, `print_info` and the protected pointer constructor (lines 113-114) are left out. They deal with raw storage or live outside the header.
- `DiagArray2`: the const `checkelem` is only declared (line 202), so it is not modelled. The const `operator ()` is modelled as `elem`, its behaviour without `BOUNDS_CHECKING`.
- `DiagArray2`: copy construction and copy assignment are identity on values. The private `Proxy::operator&` guards against taking addresses, which has no counterpart here.
- The non-const `xelem` (lines 214-218) returns a reference to a shared static element off the diagonal. Aliasing through that reference is not expressible with values, so it is left out.
- `DiagArrays.Sized`: the default-constructed contents of the store are a parameter (`default`).
- `int8NDArray`: `pow`, the stream operators and the remaining members of the file are left out. Only the comparison and boolean operator families are modelled.
- `Int8Arrays.CmpArrays`: the shape test lives in the `NDND_CMP_OPS` macro, whose definition is not part of this model. The model reports every shape mismatch as nonconformant.
- `Int8Arrays.BoolArrays`: the shape test lives in the `NDND_BOOL_OPS` macro, whose definition is not part of this model. The model reports every shape mismatch as nonconformant.
- `FsFcmOps`: single-precision rounding, IEEE infinities and NaN are not modelled; elements are exact reals. Division by zero, the complex ordering used by `lt`/`le`/`ge`/`gt`, `xdiv`, `xpow`, `elem_xdiv` and `elem_xpow` are supplied as parameters.
- `FsFcmOps.LogicalScalar`: the error the library raises when a NaN is converted to logical is not modelled, because elements cannot be NaN.
- `FsFcmOps`: the three concatenation kernels (lines 116-123) are registered but their bodies are not modelled. The `concat` / insertion logic they call is not part of this model.
- `FsFcmOps.Dispatch`: only direct table lookup is modelled. The interpreter's fallback through widening and conversion lives in the type-info dispatcher, which is not part of this model.
- `FsFcmOps`: the warning `type_info` may print when a registration overwrites an entry is not modelled.
- `FsFcmOps.Widen`: the matrix type of the widened value is a fixed placeholder (`MatrixType(0)`), because the matrix-type classification is not part of this model.
- `Defaults`: reading the process environment, the absolute-path test `absolute_pathname` and `dir_sep_char` are parameters.
- `Defaults`: the constant getters that return configure values verbatim (`canonical_host_type`, `release`, `default_pager`, lines 519-523) are left out.
- `Defaults`: the `DEFUN` built-ins (`OCTAVE_HOME`, `OCTAVE_EXEC_HOME`, `OCTAVE_VERSION`, lines 574-630) and the variables `VEXEC_PATH`, `VEDITOR`, `VIMAGE_PATH` are left out. They belong to the interpreter's variable machinery.
- Concurrency: none of the modelled code is thread-safe, and the model is sequential.
