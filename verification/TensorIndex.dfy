/** Dense tensors and row-major indexing. */
module TensorIndex {
  import opened Prelude

  datatype Tensor<T> = Tensor(data: seq<T>, shape: seq<nat>)

  datatype TensorError = ShapeMismatch | Unsupported

  function Product(shape: seq<nat>): nat {
    if shape == [] then 1 else shape[0] * Product(shape[1..])
  }

  function NewTensor<T>(data: seq<T>, shape: seq<nat>): Result<Tensor<T>, TensorError> {
    if |data| != Product(shape) then Err(ShapeMismatch) else Ok(Tensor(data, shape))
  }

  predicate InBounds(indices: seq<nat>, shape: seq<nat>) {
    |indices| == |shape| && forall i :: 0 <= i < |shape| ==> indices[i] < shape[i]
  }

  /** Row-major position: each index counts blocks of everything behind it. */
  function Flat(indices: seq<nat>, shape: seq<nat>): nat
    requires |indices| == |shape|
  {
    if shape == [] then 0 else indices[0] * Product(shape[1..]) + Flat(indices[1..], shape[1..])
  }

  /** The loop from the last dimension to the first, with its running stride. */
  method NdToFlatIndex(indices: seq<nat>, shape: seq<nat>) returns (r: Result<nat, TensorError>)
    requires |indices| == |shape|
    ensures r == if InBounds(indices, shape) then Ok(Flat(indices, shape)) else Err(Unsupported)
  {
    var flat, stride := 0, 1;
    var i := |indices|;
    while i > 0
      invariant 0 <= i <= |indices|
      invariant flat == Flat(indices[i..], shape[i..]) && stride == Product(shape[i..])
      invariant forall j :: i <= j < |shape| ==> indices[j] < shape[j]
    {
      i := i - 1;
      if indices[i] >= shape[i] {
        return Err(Unsupported);
      }
      assert indices[i..][1..] == indices[i + 1..] && shape[i..][1..] == shape[i + 1..];
      flat := flat + indices[i] * stride;
      stride := stride * shape[i];
    }
    assert indices[0..] == indices && shape[0..] == shape;
    return Ok(flat);
  }

  method GetNd<T>(t: Tensor<T>, indices: seq<nat>) returns (r: Result<T, TensorError>)
    ensures r.Ok? <==> InBounds(indices, t.shape) && Flat(indices, t.shape) < |t.data|
    ensures r.Ok? ==> r.value == t.data[Flat(indices, t.shape)]
    ensures r.Err? ==> r.error == if |indices| != |t.shape| then ShapeMismatch else Unsupported
  {
    if |indices| != |t.shape| {
      return Err(ShapeMismatch);
    }
    var flat := NdToFlatIndex(indices, t.shape);
    if flat.Err? {
      return Err(flat.error);
    }
    if flat.value >= |t.data| {
      return Err(Unsupported);
    }
    return Ok(t.data[flat.value]);
  }

  lemma BlockBound(index: nat, count: nat, block: nat, rest: nat)
    requires index < count && rest < block
    ensures index * block + rest < count * block
  {
    assert (index + 1) * block <= count * block;
    assert (index + 1) * block == index * block + block;
  }

  lemma BlockUnique(a: nat, b: nat, block: nat, x: nat, y: nat)
    requires x < block && y < block && a * block + x == b * block + y
    ensures a == b && x == y
  {
    if a < b {
      BlockBound(a, b, block, x);
    } else if b < a {
      BlockBound(b, a, block, y);
    }
  }

  /** In-range index vectors reach only positions of the tensor. */
  lemma {:induction false} FlatInRange(indices: seq<nat>, shape: seq<nat>)
    requires InBounds(indices, shape)
    ensures Flat(indices, shape) < Product(shape)
  {
    if shape != [] {
      FlatInRange(indices[1..], shape[1..]);
      BlockBound(indices[0], shape[0], Product(shape[1..]), Flat(indices[1..], shape[1..]));
    }
  }

  /** No two of them reach the same position. */
  lemma {:induction false} FlatInjective(a: seq<nat>, b: seq<nat>, shape: seq<nat>)
    requires InBounds(a, shape) && InBounds(b, shape) && Flat(a, shape) == Flat(b, shape)
    ensures a == b
  {
    if shape != [] {
      FlatInRange(a[1..], shape[1..]);
      FlatInRange(b[1..], shape[1..]);
      BlockUnique(a[0], b[0], Product(shape[1..]), Flat(a[1..], shape[1..]), Flat(b[1..], shape[1..]));
      FlatInjective(a[1..], b[1..], shape[1..]);
      assert a == [a[0]] + a[1..] && b == [b[0]] + b[1..];
    }
  }

  /** The index vector of a position. */
  function Unflat(position: nat, shape: seq<nat>): seq<nat>
    requires position < Product(shape)
  {
    if shape == [] then []
    else
      var block := Product(shape[1..]);
      Divided(position, shape[0], block);
      [position / block] + Unflat(position % block, shape[1..])
  }

  lemma NoLess(a: nat, b: nat, block: nat)
    requires a >= b
    ensures a * block >= b * block
  {
  }

  lemma Divided(position: nat, count: nat, block: nat)
    requires position < count * block
    ensures block > 0 && position / block < count && position == (position / block) * block + position % block
  {
    if block > 0 && position / block >= count {
      NoLess(position / block, count, block);
    }
  }

  /** Every position is reached: flat indexing is one-to-one onto the tensor. */
  lemma {:induction false} FlatOnto(position: nat, shape: seq<nat>)
    requires position < Product(shape)
    ensures InBounds(Unflat(position, shape), shape) && Flat(Unflat(position, shape), shape) == position
  {
    if shape != [] {
      var block := Product(shape[1..]);
      Divided(position, shape[0], block);
      FlatOnto(position % block, shape[1..]);
      var rest := Unflat(position % block, shape[1..]);
      assert Unflat(position, shape)[1..] == rest;
    }
  }
}
