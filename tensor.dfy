/** include/Tensor.h: a type-erased tensor handle (`TensorWrapper`) that keeps
    a borrowed buffer and its element count and hands out views of any rank,
    and `TensorShape`, which keeps a heap copy of a shape array. */
module TensorWrap {
  import opened Shapes
  import opened Arith

  /** `size_t` arithmetic is modulo 2^64. */
  const SizeTModulus: int := 0x1_0000_0000_0000_0000

  /** An `Eigen::TensorMap`: a shape laid over storage it does not own. */
  datatype View = View(data: array<real>, shape: Shape)

  /** The element count `checkSize` computes: the shape's product in `size_t`
      arithmetic, each `Index` entry converted to `size_t` first. */
  function WrappedProduct(shape: Shape): int {
    Product(shape) % SizeTModulus
  }

  class TensorWrapper {
    var data: array<real>
    var size: nat

    ghost predicate Valid()
      reads this
    {
      size < SizeTModulus
    }

    /** `TensorWrapper(t)`: records `t.size()` and aliases `t.data()`; nothing
        is copied. */
    constructor (storage: array<real>)
      requires storage.Length < SizeTModulus
      ensures Valid() && data == storage && size == storage.Length
    {
      data := storage;
      size := storage.Length;
    }

    /** `checkSize(shape)`: accumulates the product of the entries in a
        `size_t` and compares it with the recorded size. */
    method CheckSize(shape: Shape) returns (ok: bool)
      requires Valid()
      ensures ok <==> WrappedProduct(shape) == size
      ensures 0 <= Product(shape) < SizeTModulus ==> (ok <==> Product(shape) == size)
    {
      var total := 1;
      for n := 0 to |shape|
        invariant total == Product(shape[..n]) % SizeTModulus
      {
        ProductSnoc(shape[..n], shape[n]);
        assert shape[..n + 1] == shape[..n] + [shape[n]];
        ModMul(Product(shape[..n]), shape[n], SizeTModulus);
        total := total * (shape[n] % SizeTModulus) % SizeTModulus;
      }
      assert shape[..|shape|] == shape;
      ok := size == total;
    }

    /** `get(shape)`: the same storage under a new shape, which the source
        asserts fits the recorded size. */
    method Get(shape: Shape) returns (v: View)
      requires Valid() && WrappedProduct(shape) == size
      ensures v.data == data && v.shape == shape
      ensures WrappedProduct(v.shape) == size
    {
      v := View(data, shape);
    }

    /** `get()`: a rank-1 view of all `size` elements of the same storage. */
    method GetFlat() returns (v: View)
      requires Valid()
      ensures v.data == data && |v.shape| == 1 && Product(v.shape) == size
    {
      v := View(data, [size as int]);
      assert [size as int][1..] == [];
    }
  }

  /** The wrap-around lets a shape through whose element count differs from
      the recorded one: `[2^32, 2^32]` passes the check against size 0. */
  lemma WrappedCheckAcceptsOverflow()
    ensures WrappedProduct([0x1_0000_0000, 0x1_0000_0000]) == 0
    ensures Product([0x1_0000_0000, 0x1_0000_0000]) != 0
  {
    ProductOf2(0x1_0000_0000, 0x1_0000_0000);
  }

  class TensorShape {
    var data: array<int>
    var size: nat

    ghost predicate Valid()
      reads this
    {
      data.Length == size
    }

    /** The stored entries. */
    function Entries(): seq<int>
      reads this, data
    {
      data[..]
    }

    /** `TensorShape(shape)`: a fresh buffer holding a copy of every entry. */
    constructor (shape: seq<int>)
      ensures Valid() && fresh(data) && size == |shape| && Entries() == shape
    {
      size := |shape|;
      var buffer := new int[|shape|];
      for n := 0 to |shape|
        invariant buffer[..n] == shape[..n]
      {
        buffer[n] := shape[n];
      }
      data := buffer;
    }

    /** `get<shape_t>()`: the source asserts the requested shape type has as
        many entries as are stored, and returns a copy of them. */
    method Get(count: nat) returns (shape: seq<int>)
      requires Valid() && count == size
      ensures shape == Entries()
    {
      var temp := new int[count];
      for n := 0 to count
        invariant temp[..n] == data[..n]
      {
        temp[n] := data[n];
      }
      shape := temp[..];
    }
  }

  /** Constructing a `TensorShape` and reading it back yields the original
      shape. */
  method ShapeRoundTrip(shape: seq<int>) returns (back: seq<int>)
    ensures back == shape
  {
    var stored := new TensorShape(shape);
    back := stored.Get(|shape|);
  }
}
