/** The roofline cost algebra (jax/experimental/roofline/roofline.py):
    `RooflineShape` with its size and byte counts, and `RooflineResult` with
    `zeros`, `+` and `*` by an integer constant. */
module Roofline {
  import opened Wrappers

  // ---------------------------------------------------------------------
  // Shapes
  // ---------------------------------------------------------------------

  /** The element types a shape may carry: a numpy dtype or a PRNG key type
      (the two `ValidRooflineDtype` cases), or anything else. */
  datatype Dtype = NumpyDtype(itemsize: nat) | KeyDtype(itemsize: nat) | OtherDtype

  /** An abstract value: a shaped array, or another kind of value. */
  datatype Aval = ShapedArray(shape: seq<nat>, dtype: Dtype) | OtherAval

  /** `RooflineShape`; only the dtype's item size matters to the counts. */
  datatype RooflineShape = RooflineShape(shape: seq<nat>, itemsize: nat)

  /** The TypeErrors `RooflineShape.from_aval` raises. */
  datatype ShapeError = NotShapedArray | InvalidDtype

  /** `RooflineShape.from_aval`. */
  function FromAval(aval: Aval): (r: Result<RooflineShape, ShapeError>)
    ensures r.Ok? <==> aval.ShapedArray? && !aval.dtype.OtherDtype?
    ensures aval.OtherAval? ==> r == Err(NotShapedArray)
    ensures aval.ShapedArray? && aval.dtype.OtherDtype? ==> r == Err(InvalidDtype)
    ensures r.Ok? ==> r.value.shape == aval.shape && r.value.itemsize == aval.dtype.itemsize
  {
    match aval
    case OtherAval => Err(NotShapedArray)
    case ShapedArray(shape, dtype) =>
      if dtype.OtherDtype? then Err(InvalidDtype) else Ok(RooflineShape(shape, dtype.itemsize))
  }

  /** The product of the dimensions; 1 for a scalar. */
  function Product(dims: seq<nat>): nat
    decreases |dims|
  {
    if dims == [] then 1 else Product(dims[..|dims| - 1]) * dims[|dims| - 1]
  }

  /** `RooflineShape.size`. */
  function Size(s: RooflineShape): nat
  {
    Product(s.shape)
  }

  /** `RooflineShape.bytes`. */
  function Bytes(s: RooflineShape): nat
  {
    Size(s) * s.itemsize
  }

  /** A scalar has one element, and a trailing dimension multiplies the size. */
  lemma SizeOfScalarAndAppend(s: RooflineShape, d: nat)
    ensures Size(RooflineShape([], s.itemsize)) == 1
    ensures Size(RooflineShape(s.shape + [d], s.itemsize)) == Size(s) * d
  {
    assert (s.shape + [d])[..|s.shape|] == s.shape;
  }

  /** The size of two blocks of dimensions one after the other is the
      product of their sizes. */
  lemma {:induction false} ProductAppend(a: seq<nat>, c: seq<nat>)
    ensures Product(a + c) == Product(a) * Product(c)
    decreases |c|
  {
    if c == [] {
      assert a + c == a;
    } else {
      var m := |c| - 1;
      assert (a + c)[..|a + c| - 1] == a + c[..m];
      ProductAppend(a, c[..m]);
      assert Product(a + c) == Product(a) * Product(c[..m]) * c[m];
    }
  }

  /** A leading dimension multiplies the size, just as a trailing one does. */
  lemma {:induction false} ProductPrepend(d: nat, dims: seq<nat>)
    ensures Product([d] + dims) == d * Product(dims)
  {
    ProductAppend([d], dims);
    assert [d][..0] == [];
  }

  /** Taking dimension `j` out divides it out of the size. */
  lemma {:induction false} ProductRemove(b: seq<nat>, j: nat)
    requires j < |b|
    ensures Product(b) == Product(b[..j] + b[j + 1..]) * b[j]
  {
    var left, x, right := b[..j], b[j], b[j + 1..];
    assert b == left + ([x] + right);
    ProductAppend(left, [x] + right);
    ProductPrepend(x, right);
    ProductAppend(left, right);
    SwapLast(Product(left), x, Product(right));
  }

  lemma SwapLast(p: int, x: int, q: int)
    ensures p * (x * q) == p * q * x
  {
  }

  lemma {:induction false} MultisetRemove(b: seq<nat>, j: nat)
    requires j < |b|
    ensures multiset(b[..j] + b[j + 1..]) == multiset(b) - multiset{b[j]}
  {
    assert b == b[..j] + [b[j]] + b[j + 1..];
  }

  /** The size does not depend on the order of the dimensions. */
  lemma {:induction false} ProductPermutation(a: seq<nat>, b: seq<nat>)
    requires multiset(a) == multiset(b)
    ensures Product(a) == Product(b)
    decreases |a|
  {
    if a == [] {
      assert |b| == |multiset(b)| == 0;
    } else {
      var n := |a| - 1;
      assert a[n] in multiset(b);
      var j :| 0 <= j < |b| && b[j] == a[n];
      MultisetRemove(a, n);
      MultisetRemove(b, j);
      assert a[..n] + a[n + 1..] == a[..n];
      ProductPermutation(a[..n], b[..j] + b[j + 1..]);
      ProductRemove(b, j);
    }
  }

  /** A shape with a zero dimension holds no elements and no bytes. */
  lemma {:induction false} ZeroDimensionIsEmpty(dims: seq<nat>, itemsize: nat)
    requires exists i :: 0 <= i < |dims| && dims[i] == 0
    ensures Size(RooflineShape(dims, itemsize)) == 0 && Bytes(RooflineShape(dims, itemsize)) == 0
    decreases |dims|
  {
    var n := |dims| - 1;
    if dims[n] != 0 {
      var i :| 0 <= i < |dims| && dims[i] == 0;
      assert dims[..n][i] == 0;
      ZeroDimensionIsEmpty(dims[..n], itemsize);
    }
  }

  /** The bytes of a list of shapes. */
  function SumBytes(shapes: seq<RooflineShape>): nat
    decreases |shapes|
  {
    if shapes == [] then 0 else SumBytes(shapes[..|shapes| - 1]) + Bytes(shapes[|shapes| - 1])
  }

  lemma {:induction false} SumBytesAppend(a: seq<RooflineShape>, b: seq<RooflineShape>)
    ensures SumBytes(a + b) == SumBytes(a) + SumBytes(b)
    decreases |b|
  {
    if b != [] {
      var n := |b| - 1;
      assert (a + b)[..|a| + n] == a + b[..n];
      assert (a + b)[|a| + n] == b[n];
      SumBytesAppend(a, b[..n]);
    } else {
      assert a + b == a;
    }
  }

  /** The shapes of a list of avals, or the first TypeError. */
  function ShapesOf(avals: seq<Aval>): (r: Result<seq<RooflineShape>, ShapeError>)
    ensures r.Ok? <==> forall i :: 0 <= i < |avals| ==> FromAval(avals[i]).Ok?
    ensures r.Ok? ==> |r.value| == |avals| && forall i :: 0 <= i < |avals| ==> r.value[i] == FromAval(avals[i]).value
    decreases |avals|
  {
    if avals == [] then Ok([])
    else
      match FromAval(avals[0])
      case Err(e) => Err(e)
      case Ok(s) =>
        match ShapesOf(avals[1..])
        case Err(e) => Err(e)
        case Ok(rest) =>
          assert forall i :: 1 <= i < |avals| ==> avals[1..][i - 1] == avals[i];
          Ok([s] + rest)
  }

  /** `RooflineShape.total_bytes`. */
  function TotalBytes(avals: seq<Aval>): Result<nat, ShapeError>
  {
    match ShapesOf(avals)
    case Err(e) => Err(e)
    case Ok(shapes) => Ok(SumBytes(shapes))
  }

  /** Converting two lists together converts each, and fails exactly when
      one of them fails. */
  lemma ShapesOfAppendOk(a: seq<Aval>, b: seq<Aval>)
    ensures ShapesOf(a + b).Ok? <==> ShapesOf(a).Ok? && ShapesOf(b).Ok?
  {
    var ab := a + b;
    if ShapesOf(a).Ok? && ShapesOf(b).Ok? {
      forall i | 0 <= i < |ab| ensures FromAval(ab[i]).Ok? {
        if i < |a| { assert ab[i] == a[i]; } else { assert ab[i] == b[i - |a|]; }
      }
    } else if !ShapesOf(a).Ok? {
      var i :| 0 <= i < |a| && !FromAval(a[i]).Ok?;
      assert ab[i] == a[i];
    } else {
      var i :| 0 <= i < |b| && !FromAval(b[i]).Ok?;
      assert ab[|a| + i] == b[i];
    }
  }

  /** Converting two lists together gives the conversions of each, joined. */
  lemma ShapesOfAppendValue(a: seq<Aval>, b: seq<Aval>)
    requires ShapesOf(a).Ok? && ShapesOf(b).Ok?
    ensures ShapesOf(a + b).Ok? && ShapesOf(a + b).value == ShapesOf(a).value + ShapesOf(b).value
  {
    ShapesOfAppendOk(a, b);
    var ab := a + b;
    var sa, sb, sab := ShapesOf(a).value, ShapesOf(b).value, ShapesOf(ab).value;
    forall i | 0 <= i < |ab| ensures sab[i] == (sa + sb)[i] {
      if i < |a| { assert ab[i] == a[i]; } else { assert ab[i] == b[i - |a|]; }
    }
  }

  /** The byte total of two lists together is the sum of their totals, and
      fails exactly when one of them does. */
  lemma TotalBytesAppend(a: seq<Aval>, b: seq<Aval>)
    ensures TotalBytes(a + b).Ok? <==> TotalBytes(a).Ok? && TotalBytes(b).Ok?
    ensures TotalBytes(a + b).Ok? ==> TotalBytes(a + b).value == TotalBytes(a).value + TotalBytes(b).value
  {
    ShapesOfAppendOk(a, b);
    if ShapesOf(a + b).Ok? {
      ShapesOfAppendValue(a, b);
      SumBytesAppend(ShapesOf(a).value, ShapesOf(b).value);
    }
  }

  // ---------------------------------------------------------------------
  // RooflineResult
  // ---------------------------------------------------------------------

  /** `RooflineResult`: integer counters and two per-axis dictionaries. */
  datatype RooflineResult = RooflineResult(
    flops: int,
    unfusedFlops: int,
    iciBytes: map<string, int>,
    iciLatency: map<string, int>,
    hbmBytes: int,
    peakHbmBytes: int,
    unfusedHbmBytes: int)

  /** `RooflineResult.zeros()`: every counter 0, both dictionaries empty. */
  function Zeros(): (z: RooflineResult)
    ensures z.flops == 0 && z.unfusedFlops == 0 && z.hbmBytes == 0 && z.peakHbmBytes == 0 && z.unfusedHbmBytes == 0
    ensures z.iciBytes == map[] && z.iciLatency == map[]
  {
    RooflineResult(0, 0, map[], map[], 0, 0, 0)
  }

  /** A result whose only non-zero field is the peak. */
  function PeakOnly(peak: int): RooflineResult
  {
    Zeros().(peakHbmBytes := peak)
  }

  /** `d.get(k, 0)`. */
  function Get(d: map<string, int>, k: string): int
  {
    if k in d then d[k] else 0
  }

  /** `merge_ici_dicts`. */
  function Merge(d1: map<string, int>, d2: map<string, int>): (r: map<string, int>)
    ensures r.Keys == d1.Keys + d2.Keys
    ensures forall k :: Get(r, k) == Get(d1, k) + Get(d2, k)
  {
    map k | k in d1.Keys + d2.Keys :: Get(d1, k) + Get(d2, k)
  }

  function Max(a: int, b: int): int
  {
    if a >= b then a else b
  }

  /** `RooflineResult.__add__`. */
  function Add(a: RooflineResult, b: RooflineResult): (r: RooflineResult)
    ensures r.flops == a.flops + b.flops && r.unfusedFlops == a.unfusedFlops + b.unfusedFlops
    ensures r.hbmBytes == a.hbmBytes + b.hbmBytes && r.unfusedHbmBytes == a.unfusedHbmBytes + b.unfusedHbmBytes
    ensures r.peakHbmBytes >= a.peakHbmBytes && r.peakHbmBytes >= b.peakHbmBytes
    ensures r.peakHbmBytes == a.peakHbmBytes || r.peakHbmBytes == b.peakHbmBytes
    ensures forall k :: k in r.iciBytes <==> k in a.iciBytes || k in b.iciBytes
    ensures forall k :: Get(r.iciBytes, k) == Get(a.iciBytes, k) + Get(b.iciBytes, k)
    ensures forall k :: k in r.iciLatency <==> k in a.iciLatency || k in b.iciLatency
    ensures forall k :: Get(r.iciLatency, k) == Get(a.iciLatency, k) + Get(b.iciLatency, k)
  {
    RooflineResult(
      a.flops + b.flops,
      a.unfusedFlops + b.unfusedFlops,
      Merge(a.iciBytes, b.iciBytes),
      Merge(a.iciLatency, b.iciLatency),
      a.hbmBytes + b.hbmBytes,
      Max(a.peakHbmBytes, b.peakHbmBytes),
      a.unfusedHbmBytes + b.unfusedHbmBytes)
  }

  /** Two dictionaries with the same keys and the same `get` agree. */
  lemma DictsEqual(d1: map<string, int>, d2: map<string, int>)
    requires d1.Keys == d2.Keys && forall k :: Get(d1, k) == Get(d2, k)
    ensures d1 == d2
  {
    assert forall k :: k in d1 ==> d1[k] == Get(d1, k) == Get(d2, k) == d2[k];
  }

  /** `+` is commutative. */
  lemma AddCommutative(a: RooflineResult, b: RooflineResult)
    ensures Add(a, b) == Add(b, a)
  {
    DictsEqual(Add(a, b).iciBytes, Add(b, a).iciBytes);
    DictsEqual(Add(a, b).iciLatency, Add(b, a).iciLatency);
  }

  /** `+` is associative. */
  lemma AddAssociative(a: RooflineResult, b: RooflineResult, c: RooflineResult)
    ensures Add(Add(a, b), c) == Add(a, Add(b, c))
  {
    MergeAssociative(a.iciBytes, b.iciBytes, c.iciBytes);
    MergeAssociative(a.iciLatency, b.iciLatency, c.iciLatency);
  }

  /** Merging dictionaries is associative. */
  lemma MergeAssociative(d1: map<string, int>, d2: map<string, int>, d3: map<string, int>)
    ensures Merge(Merge(d1, d2), d3) == Merge(d1, Merge(d2, d3))
  {
    DictsEqual(Merge(Merge(d1, d2), d3), Merge(d1, Merge(d2, d3)));
  }

  /** `zeros()` is an identity for `+` on every result whose peak is not
      negative, which holds for every result built from byte counts. */
  lemma ZerosIdentity(a: RooflineResult)
    requires a.peakHbmBytes >= 0
    ensures Add(Zeros(), a) == a && Add(a, Zeros()) == a
  {
    DictsEqual(Add(Zeros(), a).iciBytes, a.iciBytes);
    DictsEqual(Add(Zeros(), a).iciLatency, a.iciLatency);
    AddCommutative(a, Zeros());
  }

  /** The requirement is needed: `max` lifts a negative peak to 0. */
  lemma ZerosLiftsNegativePeak(a: RooflineResult)
    requires a.peakHbmBytes < 0
    ensures Add(Zeros(), a).peakHbmBytes == 0 && Add(Zeros(), a) != a
  {
  }

  /** `v * c` applied to every value of a dictionary. */
  function Scale(d: map<string, int>, c: int): (r: map<string, int>)
    ensures r.Keys == d.Keys
    ensures forall k :: Get(r, k) == Get(d, k) * c
  {
    map k | k in d :: d[k] * c
  }

  /** `RooflineResult.__mul__` and `__rmul__` with an integer constant, where
      `int(x * c)` is exact. */
  function Mul(r: RooflineResult, c: int): (m: RooflineResult)
    ensures m.flops == r.flops * c && m.unfusedFlops == r.unfusedFlops * c
    ensures m.hbmBytes == r.hbmBytes * c && m.peakHbmBytes == r.peakHbmBytes * c
    ensures m.unfusedHbmBytes == r.unfusedHbmBytes * c
    ensures m.iciBytes.Keys == r.iciBytes.Keys && forall k :: Get(m.iciBytes, k) == Get(r.iciBytes, k) * c
    ensures m.iciLatency.Keys == r.iciLatency.Keys && forall k :: Get(m.iciLatency, k) == Get(r.iciLatency, k) * c
  {
    RooflineResult(
      r.flops * c,
      r.unfusedFlops * c,
      Scale(r.iciBytes, c),
      Scale(r.iciLatency, c),
      r.hbmBytes * c,
      r.peakHbmBytes * c,
      r.unfusedHbmBytes * c)
  }

  lemma MulOne(r: RooflineResult)
    ensures Mul(r, 1) == r
  {
    DictsEqual(Mul(r, 1).iciBytes, r.iciBytes);
    DictsEqual(Mul(r, 1).iciLatency, r.iciLatency);
  }

  lemma MaxScales(x: int, y: int, c: int)
    requires c >= 0
    ensures Max(x, y) * c == Max(x * c, y * c)
  {
    if x >= y {
      assert x * c >= y * c by { assert (x - y) * c >= 0; }
    } else {
      assert y * c >= x * c by { assert (y - x) * c >= 0; }
    }
  }

  /** Scaling by a non-negative constant distributes over `+`; with a
      negative one the peak's `max` would become a `min`. */
  lemma MulDistributes(a: RooflineResult, b: RooflineResult, c: int)
    requires c >= 0
    ensures Mul(Add(a, b), c) == Add(Mul(a, c), Mul(b, c))
  {
    MaxScales(a.peakHbmBytes, b.peakHbmBytes, c);
    ScaleDistributes(a.iciBytes, b.iciBytes, c);
    ScaleDistributes(a.iciLatency, b.iciLatency, c);
  }

  /** Scaling a dictionary distributes over merging. */
  lemma ScaleDistributes(d1: map<string, int>, d2: map<string, int>, c: int)
    ensures Scale(Merge(d1, d2), c) == Merge(Scale(d1, c), Scale(d2, c))
  {
    forall k ensures Get(Scale(Merge(d1, d2), c), k) == Get(Merge(Scale(d1, c), Scale(d2, c)), k) {
      assert (Get(d1, k) + Get(d2, k)) * c == Get(d1, k) * c + Get(d2, k) * c;
    }
    DictsEqual(Scale(Merge(d1, d2), c), Merge(Scale(d1, c), Scale(d2, c)));
  }

  /** Scaling twice is scaling by the product. */
  lemma MulCompose(r: RooflineResult, c: int, d: int)
    ensures Mul(Mul(r, c), d) == Mul(r, c * d)
  {
    forall k ensures Get(Mul(Mul(r, c), d).iciBytes, k) == Get(Mul(r, c * d).iciBytes, k) {
      assert Get(r.iciBytes, k) * c * d == Get(r.iciBytes, k) * (c * d);
    }
    forall k ensures Get(Mul(Mul(r, c), d).iciLatency, k) == Get(Mul(r, c * d).iciLatency, k) {
      assert Get(r.iciLatency, k) * c * d == Get(r.iciLatency, k) * (c * d);
    }
    DictsEqual(Mul(Mul(r, c), d).iciBytes, Mul(r, c * d).iciBytes);
    DictsEqual(Mul(Mul(r, c), d).iciLatency, Mul(r, c * d).iciLatency);
  }

  /** Adding a result to itself is scaling it by 2, except that the peak is
      kept rather than doubled. */
  lemma AddSelf(r: RooflineResult)
    ensures Add(r, r) == Mul(r, 2).(peakHbmBytes := r.peakHbmBytes)
  {
    DictsEqual(Add(r, r).iciBytes, Mul(r, 2).iciBytes);
    DictsEqual(Add(r, r).iciLatency, Mul(r, 2).iciLatency);
  }
}
