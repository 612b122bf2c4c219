/** Plain N-d arrays as values: a dimension vector and the elements in
    column-major order. Only what the element-wise kernels need. */
module Arrays {
  import opened ArrayUtil

  datatype NDArray<T> = NDArray(dims: DimVector, data: seq<T>)
  {
    /** One element per logical position. */
    predicate Valid()
    {
      |data| == Numel(dims)
    }
  }

  /** An array of the given dimensions with every element `v`. */
  function Fill<T>(dims: DimVector, v: T): (r: NDArray<T>)
    ensures r.Valid() && r.dims == dims
    ensures forall i :: 0 <= i < |r.data| ==> r.data[i] == v
  {
    NDArray(dims, seq(Numel(dims), _ => v))
  }

  /** Same dimensions, every element mapped by `f`. */
  function MapElems<T, U>(a: NDArray<T>, f: T -> U): (r: NDArray<U>)
    requires a.Valid()
    ensures r.Valid() && r.dims == a.dims
    ensures forall i :: 0 <= i < |a.data| ==> r.data[i] == f(a.data[i])
  {
    NDArray(a.dims, seq(|a.data|, i requires 0 <= i < |a.data| => f(a.data[i])))
  }

  /** Same dimensions, corresponding elements of two equally shaped arrays combined by `f`. */
  function ZipElems<T, U, V>(a: NDArray<T>, b: NDArray<U>, f: (T, U) -> V): (r: NDArray<V>)
    requires a.Valid() && b.Valid() && a.dims == b.dims
    ensures r.Valid() && r.dims == a.dims
    ensures forall i :: 0 <= i < |a.data| ==> r.data[i] == f(a.data[i], b.data[i])
  {
    NDArray(a.dims, seq(|a.data|, i requires 0 <= i < |a.data| => f(a.data[i], b.data[i])))
  }

  /** Arrays are equal when shapes and elements agree. */
  lemma Extensional<T>(x: NDArray<T>, y: NDArray<T>)
    requires x.dims == y.dims && |x.data| == |y.data|
    requires forall i :: 0 <= i < |x.data| ==> x.data[i] == y.data[i]
    ensures x == y
  {
    assert x.data == y.data;
  }
}
