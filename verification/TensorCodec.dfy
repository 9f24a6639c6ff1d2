/** The binary tensor dictionary: little-endian fields, tensor data padded to 256-byte boundaries,
    and a zero-copy parser that hands out views into the buffer it reads. */
module TensorCodec {
  import opened Options

  type Byte = x: int | 0 <= x < 256
  type Bytes = seq<Byte>

  datatype Error =
    | UnexpectedEnd | InvalidMagic | UnsupportedVersion | UnsupportedDType | SizeMismatch | DataMissing

  datatype Result<+T> = Ok(value: T) | Err(error: Error) {
    predicate IsFailure() { Err? }
    function PropagateFailure<U>(): Result<U>
      requires Err?
    {
      Err(error)
    }
    function Extract(): T
      requires Ok?
    {
      value
    }
  }

  const U32 := 0x1_0000_0000
  const U64 := 0x1_0000_0000_0000_0000

  const MAGIC: Bytes := [84, 69, 78, 83, 68, 73, 67, 84]
  const VERSION := 2
  const ALIGNMENT := 256

  // ---- Tensors ---------------------------------------------------------------------------------

  datatype DType = Float32 | Float16 | Int8 | UInt8 | BFloat16 | Int32 | Float64 {
    function Code(): nat {
      match this
      case Float32 => 0
      case Float16 => 1
      case Int8 => 2
      case UInt8 => 3
      case BFloat16 => 4
      case Int32 => 5
      case Float64 => 6
    }

    function ElementSize(): nat {
      match this
      case Float32 => 4
      case Float16 => 2
      case Int8 => 1
      case UInt8 => 1
      case BFloat16 => 2
      case Int32 => 4
      case Float64 => 8
    }
  }

  function FromCode(code: nat): (r: Result<DType>)
    ensures r.Ok? <==> code < 7
    ensures r.Ok? ==> r.value.Code() == code && r.value.ElementSize() == [4, 2, 1, 1, 2, 4, 8][code]
  {
    match code
    case 0 => Ok(Float32)
    case 1 => Ok(Float16)
    case 2 => Ok(Int8)
    case 3 => Ok(UInt8)
    case 4 => Ok(BFloat16)
    case 5 => Ok(Int32)
    case 6 => Ok(Float64)
    case _ => Err(UnsupportedDType)
  }

  function Product(shape: seq<nat>): nat {
    if shape == [] then 1 else Product(shape[..|shape| - 1]) * shape[|shape| - 1]
  }

  /** The byte size of a tensor, in 64-bit arithmetic. */
  function ByteSize(dtype: DType, shape: seq<nat>): (size: nat) {
    dtype.ElementSize() * Product(shape) % U64
  }

  lemma ProductOne(n: nat)
    ensures Product([]) == 1 && Product([n]) == n
  {
    assert [n][..0] == [];
  }

  /** The number of elements does not depend on how the dimensions are grouped. */
  lemma {:induction false} ProductConcat(a: seq<nat>, b: seq<nat>)
    ensures Product(a + b) == Product(a) * Product(b)
  {
    if b == [] {
      assert a + b == a;
    } else {
      var n := |b| - 1;
      assert (a + b)[..|a| + n] == a + b[..n];
      ProductConcat(a, b[..n]);
      Associate(Product(a), Product(b[..n]), b[n]);
    }
  }

  lemma Associate(x: nat, y: nat, z: nat)
    ensures (x * y) * z == x * (y * z)
  {
  }

  /** What a type and a shape stand for: codes, widths and sizes written out. */
  lemma Layouts(m: nat, n: nat)
    ensures Float32.Code() == 0 && Float16.Code() == 1 && Int8.Code() == 2 && UInt8.Code() == 3
    ensures BFloat16.Code() == 4 && Int32.Code() == 5 && Float64.Code() == 6
    ensures ByteSize(Float32, []) == 4 && ByteSize(Float32, [n]) == 4 * n % U64
    ensures ByteSize(Float32, [m, n]) == 4 * (m * n) % U64
  {
    ProductOne(m);
    ProductOne(n);
    assert [m, n] == [m] + [n];
    ProductConcat([m], [n]);
  }

  lemma MulGrows(m: int, k: int)
    requires m > 0
    ensures k >= 1 ==> m * k >= m
    ensures k <= -1 ==> m * k <= -m
  {
  }

  lemma DivUnique(x: int, m: int, q: int, r: int)
    requires x == m * q + r && 0 <= r < m
    ensures x / m == q && x % m == r
  {
    assert m * (x / m) + x % m == x;
    assert m * (x / m - q) == m * (x / m) - m * q;
    MulGrows(m, x / m - q);
  }

  lemma ModMul(a: nat, b: nat, m: nat)
    requires m > 0
    ensures (a % m) * b % m == a * b % m
  {
    var c := (a % m) * b;
    assert a * b == m * (a / m * b) + c by {
      assert a == m * (a / m) + a % m;
      assert (m * (a / m)) * b == m * (a / m * b);
    }
    assert c == m * (c / m) + c % m;
    assert a * b == m * (a / m * b + c / m) + c % m;
    DivUnique(a * b, m, a / m * b + c / m, c % m);
  }

  lemma Regroup(a: nat, b: nat, q: nat, r: nat, s: nat)
    requires r < b && s < a
    ensures a * r + s < a * b
    ensures a * (b * q + r) + s == (a * b) * q + (a * r + s)
  {
    assert a * r <= a * (b - 1);
    assert a * (b * q + r) == a * (b * q) + a * r;
    assert a * (b * q) == (a * b) * q;
  }

  lemma DivDiv(x: nat, a: nat, b: nat)
    requires a > 0 && b > 0
    ensures a * b > 0 && x / a / b == x / (a * b)
  {
    var y := x / a;
    Regroup(a, b, y / b, y % b, x % a);
    assert x == a * y + x % a && y == b * (y / b) + y % b;
    DivUnique(x, a * b, y / b, a * (y % b) + x % a);
  }

  lemma SmallShapes(shape: seq<nat>)
    ensures shape == [] ==> Product(shape) == 1
    ensures |shape| == 1 ==> Product(shape) == shape[0]
    ensures |shape| == 2 ==> Product(shape) == shape[0] * shape[1]
  {
    if |shape| == 1 {
      assert shape == [shape[0]];
      ProductOne(shape[0]);
    } else if |shape| == 2 {
      assert shape == [shape[0]] + [shape[1]];
      ProductOne(shape[0]);
      ProductOne(shape[1]);
      ProductConcat([shape[0]], [shape[1]]);
    }
  }

  /** The running product wraps at every step; the result is the wrapped true product. */
  method ComputeSize(dtype: DType, shape: seq<nat>) returns (size: nat)
    ensures size == ByteSize(dtype, shape)
    ensures shape == [] ==> size == dtype.ElementSize()
    ensures |shape| == 1 ==> size == dtype.ElementSize() * shape[0] % U64
    ensures |shape| == 2 ==> size == dtype.ElementSize() * (shape[0] * shape[1]) % U64
  {
    SmallShapes(shape);
    var total := 1;
    for i := 0 to |shape|
      invariant total == Product(shape[..i]) % U64
    {
      assert shape[..i + 1][..i] == shape[..i];
      ModMul(Product(shape[..i]), shape[i], U64);
      total := total * shape[i] % U64;
    }
    assert shape[..|shape|] == shape;
    ModMul(Product(shape), dtype.ElementSize(), U64);
    size := dtype.ElementSize() * total % U64;
  }

  /** A tensor whose data pointer may be null. */
  datatype Tensor = Tensor(dtype: DType, shape: seq<nat>, dataSize: nat, data: Option<Bytes>) {
    /** Dimensions are machine words, the recorded size is the computed one, the data has that size. */
    ghost predicate Valid() {
      && |shape| < U64 && (forall i :: 0 <= i < |shape| ==> shape[i] < U64)
      && dataSize == ByteSize(dtype, shape)
      && (data.Some? ==> |data.value| == dataSize)
    }
  }

  datatype Entry = Entry(name: Bytes, tensor: Tensor)

  ghost predicate WellFormed(entries: seq<Entry>) {
    && |entries| < U32
    && (forall i :: 0 <= i < |entries| ==> |entries[i].name| < U32 && entries[i].tensor.Valid())
    && (forall i, j :: 0 <= i < j < |entries| ==> entries[i].name != entries[j].name)
  }

  // ---- Little-endian values --------------------------------------------------------------------

  function Pow256(n: nat): (p: nat)
    ensures p > 0
  {
    if n == 0 then 1 else 256 * Pow256(n - 1)
  }

  /** The value of the last `k` bytes, least significant first. */
  function TailValue(s: Bytes, k: nat): nat
    requires k <= |s|
  {
    if k == 0 then 0 else s[|s| - k] + 256 * TailValue(s, k - 1)
  }

  function Value(s: Bytes): nat {
    TailValue(s, |s|)
  }

  function ToBytes(value: nat, n: nat): (s: Bytes)
    ensures |s| == n
  {
    seq(n, i requires 0 <= i < n => value / Pow256(i) % 256)
  }

  lemma OneByteMore(value: nat, p: nat)
    requires p > 0
    ensures value / p % 256 + 256 * (value / (256 * p)) == value / p
  {
    DivDiv(value, p, 256);
    assert p * 256 == 256 * p;
  }

  lemma TailStep(s: Bytes, k: nat, value: nat, p: nat, larger: nat)
    requires 0 < k <= |s| && p > 0 && larger == 256 * p
    requires s[|s| - k] == value / p % 256 && TailValue(s, k - 1) == value / larger
    ensures TailValue(s, k) == value / p
  {
    OneByteMore(value, p);
  }

  /** The powers below a position, with their order reversed as the bytes are read. */
  lemma {:induction false} TailRoundTrip(value: nat, s: Bytes, k: nat, p: nat)
    requires s == ToBytes(value, |s|) && value < Pow256(|s|) && k <= |s| && p == Pow256(|s| - k)
    ensures TailValue(s, k) == value / p
    decreases k
  {
    if k == 0 {
      DivUnique(value, p, 0, value);
    } else {
      var larger := Pow256(|s| - k + 1);
      TailRoundTrip(value, s, k - 1, larger);
      TailStep(s, k, value, p, larger);
    }
  }

  lemma ValueRoundTrip(value: nat, n: nat)
    requires value < Pow256(n)
    ensures Value(ToBytes(value, n)) == value
  {
    TailRoundTrip(value, ToBytes(value, n), n, Pow256(0));
  }

  lemma WordSizes()
    ensures Pow256(4) == U32 && Pow256(8) == U64
  {
    assert Pow256(1) == 256 && Pow256(2) == 0x1_0000 && Pow256(3) == 0x100_0000;
    assert Pow256(4) == U32;
    assert Pow256(5) == 256 * U32;
    assert Pow256(6) == 0x1_0000 * U32;
    assert Pow256(7) == 0x100_0000 * U32;
  }

  // ---- The encoding ----------------------------------------------------------------------------

  function EncodeShape(shape: seq<nat>): (s: Bytes)
    ensures |s| == 8 * |shape|
  {
    if shape == [] then [] else EncodeShape(shape[..|shape| - 1]) + ToBytes(shape[|shape| - 1], 8)
  }

  /** The padding written after `position` bytes so that the data starts on a boundary. */
  function Padding(position: nat): (p: nat)
    ensures p < ALIGNMENT && (position + 4 + p) % ALIGNMENT == 0
  {
    (ALIGNMENT - (position + 4) % ALIGNMENT) % ALIGNMENT
  }

  function Zeros(n: nat): (s: Bytes)
    ensures |s| == n
  {
    seq(n, _ => 0)
  }

  function EncodeName(name: Bytes): Bytes {
    ToBytes(|name| % U32, 4) + name
  }

  function EncodeTensor(t: Tensor): Bytes {
    ToBytes(t.dtype.Code(), 4) + ToBytes(|t.shape|, 8) + EncodeShape(t.shape) + ToBytes(t.dataSize, 8)
  }

  function EncodeFields(e: Entry): Bytes {
    EncodeName(e.name) + EncodeTensor(e.tensor)
  }

  function EncodePadding(position: nat): Bytes {
    ToBytes(Padding(position), 4) + Zeros(Padding(position))
  }

  /** The output `front`, ending with a tensor's fields, with its padding and data. */
  function WithData(front: Bytes, t: Tensor): Result<Bytes> {
    if t.dataSize == 0 then Ok(front)
    else if t.data.None? then Err(DataMissing)
    else Ok(front + EncodePadding(|front|) + t.data.value)
  }

  /** The output `front` with one more entry. */
  function WithEntry(front: Bytes, e: Entry): Result<Bytes> {
    WithData(front + EncodeFields(e), e.tensor)
  }

  function Header(count: nat): Bytes {
    MAGIC + ToBytes(VERSION, 4) + ToBytes(count % U32, 4)
  }

  /** The header announcing `count` entries, then the given entries. */
  function Encode(entries: seq<Entry>, count: nat): Result<Bytes> {
    if entries == [] then Ok(Header(count))
    else
      var front :- Encode(entries[..|entries| - 1], count);
      WithEntry(front, entries[|entries| - 1])
  }

  /** Serialisation succeeds exactly when every non-empty tensor has its data. */
  lemma {:induction false} EncodeSucceeds(entries: seq<Entry>, count: nat)
    ensures Encode(entries, count).Ok?
            <==> forall i :: 0 <= i < |entries| && entries[i].tensor.dataSize > 0 ==> entries[i].tensor.data.Some?
    ensures Encode(entries, count).Err? ==> Encode(entries, count).error == DataMissing
  {
    if entries == [] {
    } else {
      var n := |entries| - 1;
      EncodeSucceeds(entries[..n], count);
      assert entries == entries[..n] + [entries[n]];
    }
  }

  // ---- The format, byte by byte ----------------------------------------------------------------

  /** Four and eight bytes, least significant first. */
  lemma WordBytes(v: nat)
    ensures ToBytes(v, 4) == [v % 256, v / 0x100 % 256, v / 0x1_0000 % 256, v / 0x100_0000 % 256]
    ensures ToBytes(v, 8)[..4] == ToBytes(v, 4) && ToBytes(v, 8)[4..] == ToBytes(v / U32, 4)
  {
    WordSizes();
    assert Pow256(1) == 0x100 && Pow256(2) == 0x1_0000 && Pow256(3) == 0x100_0000;
    forall i | 0 <= i < 4 ensures ToBytes(v, 8)[4 + i] == ToBytes(v / U32, 4)[i] {
      UpperByte(v, i);
    }
  }

  lemma UpperByte(v: nat, i: nat)
    requires i < 4
    ensures v / Pow256(4 + i) == v / U32 / Pow256(i)
  {
    WordSizes();
    assert Pow256(1) == 0x100 && Pow256(2) == 0x1_0000 && Pow256(3) == 0x100_0000;
    assert Pow256(5) == U32 * 0x100 && Pow256(6) == U32 * 0x1_0000 && Pow256(7) == U32 * 0x100_0000;
    DivDiv(v, U32, Pow256(i));
  }

  lemma ShapeBytes(m: nat, n: nat)
    ensures EncodeShape([m, n]) == ToBytes(m, 8) + ToBytes(n, 8)
  {
    assert [m, n][..1] == [m] && [m][..0] == [];
  }

  lemma SamePadding(position: nat, padding: nat)
    requires padding < 256 && (position + 4 + padding) % 256 == 0
    ensures Padding(position) == padding
  {
    var a, b := position + 4 + padding, position + 4 + Padding(position);
    assert a == 256 * (a / 256) && b == 256 * (b / 256);
  }

  lemma HeaderBytes()
    ensures Header(1) == [84, 69, 78, 83, 68, 73, 67, 84] + [2, 0, 0, 0] + [1, 0, 0, 0]
  {
    WordBytes(2);
    WordBytes(1);
  }

  /** The fields of a matrix of floats. */
  lemma MatrixFields(name: Bytes, m: nat, n: nat, t: Tensor)
    requires |name| < U32 && t.dtype == Float32 && t.shape == [m, n]
    ensures EncodeFields(Entry(name, t)) == (ToBytes(|name|, 4) + name)
            + ([0, 0, 0, 0] + ToBytes(2, 8) + (ToBytes(m, 8) + ToBytes(n, 8)) + ToBytes(t.dataSize, 8))
  {
    WordBytes(0);
    ShapeBytes(m, n);
  }

  lemma OneEntry(e: Entry, front: Bytes, padding: nat)
    requires front == Header(1) + EncodeFields(e) && e.tensor.dataSize > 0 && e.tensor.data.Some?
    requires padding < 256 && (|front| + 4 + padding) % 256 == 0
    ensures Encode([e], 1) == Ok(front + (ToBytes(padding, 4) + Zeros(padding)) + e.tensor.data.value)
  {
    assert [e][..0] == [];
    SamePadding(|front|, padding);
  }

  /** A dictionary with one matrix of floats: the fields of the format in their order and widths, the
      data on a boundary. */
  lemma MatrixBytes(name: Bytes, m: nat, n: nat, data: Bytes, padding: nat, fields: Bytes)
    requires |name| < U32 && |data| > 0
    requires padding < 256 && (56 + |name| + 4 + padding) % 256 == 0
    requires fields == (ToBytes(|name|, 4) + name)
                       + ([0, 0, 0, 0] + ToBytes(2, 8) + (ToBytes(m, 8) + ToBytes(n, 8)) + ToBytes(|data|, 8))
    ensures Encode([Entry(name, Tensor(Float32, [m, n], |data|, Some(data)))], 1)
            == Ok([84, 69, 78, 83, 68, 73, 67, 84] + [2, 0, 0, 0] + [1, 0, 0, 0] + fields
                  + (ToBytes(padding, 4) + Zeros(padding)) + data)
  {
    var entry := Entry(name, Tensor(Float32, [m, n], |data|, Some(data)));
    HeaderBytes();
    MatrixFields(name, m, n, entry.tensor);
    OneEntry(entry, Header(1) + fields, padding);
  }

  // ---- The serializer --------------------------------------------------------------------------

  method AppendValue(before: Bytes, value: nat, bytes: nat) returns (out: Bytes)
    ensures out == before + ToBytes(value, bytes)
  {
    var start := |before|;
    out := before + seq(bytes, _ => 0);
    for i := 0 to bytes
      invariant |out| == start + bytes && out[..start] == before
      invariant out[start..start + i] == ToBytes(value, bytes)[..i]
    {
      var shifted := value / Pow256(i);
      out := out[start + i := shifted % 256];
      assert out[start..start + i + 1] == out[start..start + i] + [shifted % 256];
      assert ToBytes(value, bytes)[..i + 1] == ToBytes(value, bytes)[..i] + [shifted % 256];
    }
    assert out == out[..start] + out[start..start + bytes];
  }

  method AppendShape(before: Bytes, shape: seq<nat>) returns (out: Bytes)
    ensures out == before + EncodeShape(shape)
  {
    out := before;
    for i := 0 to |shape|
      invariant out == before + EncodeShape(shape[..i])
    {
      assert shape[..i + 1][..i] == shape[..i];
      out := AppendValue(out, shape[i], 8);
    }
    assert shape[..|shape|] == shape;
  }

  method AppendFields(before: Bytes, e: Entry) returns (out: Bytes)
    ensures out == before + EncodeFields(e)
  {
    out := AppendValue(before, |e.name| % U32, 4);
    out := out + e.name;
    out := AppendValue(out, e.tensor.dtype.Code(), 4);
    out := AppendValue(out, |e.tensor.shape|, 8);
    out := AppendShape(out, e.tensor.shape);
    out := AppendValue(out, e.tensor.dataSize, 8);
  }

  method AppendPadding(before: Bytes) returns (out: Bytes)
    ensures out == before + EncodePadding(|before|)
  {
    var padding := (ALIGNMENT - (|before| + 4) % ALIGNMENT) % ALIGNMENT;
    out := AppendValue(before, padding, 4);
    if padding > 0 {
      out := out + seq(padding, _ => 0);
    }
  }

  method SerializeTensorMap(entries: seq<Entry>) returns (r: Result<Bytes>)
    ensures r == Encode(entries, |entries|)
  {
    var n := |entries|;
    var out: Bytes := MAGIC;
    out := AppendValue(out, VERSION, 4);
    out := AppendValue(out, n % U32, 4);
    for i := 0 to n
      invariant Encode(entries[..i], n) == Ok(out)
    {
      var e := entries[i];
      assert entries[..i + 1][..i] == entries[..i];
      out := AppendFields(out, e);
      if e.tensor.dataSize == 0 {
        continue;
      }
      out := AppendPadding(out);
      if e.tensor.data.None? {
        EncodeSucceeds(entries, n);
        return Err(DataMissing);
      }
      out := out + e.tensor.data.value;
    }
    assert entries[..n] == entries;
    return Ok(out);
  }

  // ---- What the parser reads -------------------------------------------------------------------

  /** A parsed tensor: its data, when there is any, stays at `offset` in the buffer. */
  datatype View = View(dtype: DType, shape: seq<nat>, size: nat, offset: Option<nat>)

  type Views = map<Bytes, View>

  function ReadValue(b: Bytes, pos: nat, n: nat): (r: Result<(nat, nat)>)
    requires pos <= |b|
    ensures r.Ok? ==> pos <= r.value.1 <= |b|
  {
    if |b| - pos < n then Err(UnexpectedEnd) else Ok((Value(b[pos..pos + n]), pos + n))
  }

  function ReadShape(b: Bytes, pos: nat, ndim: nat): (r: Result<(seq<nat>, nat)>)
    requires pos <= |b|
    ensures r.Ok? ==> pos <= r.value.1 <= |b|
  {
    if ndim == 0 then Ok(([], pos))
    else
      var front :- ReadShape(b, pos, ndim - 1);
      var dim :- ReadValue(b, front.1, 8);
      Ok((front.0 + [dim.0], dim.1))
  }

  function ReadFields(b: Bytes, pos: nat): (r: Result<(DType, seq<nat>, nat, nat)>)
    requires pos <= |b|
    ensures r.Ok? ==> pos <= r.value.3 <= |b|
  {
    var code :- ReadValue(b, pos, 4);
    var ndim :- ReadValue(b, code.1, 8);
    var shape :- ReadShape(b, ndim.1, ndim.0);
    var size :- ReadValue(b, shape.1, 8);
    var dtype :- FromCode(code.0);
    if ByteSize(dtype, shape.0) != size.0 then Err(SizeMismatch)
    else Ok((dtype, shape.0, size.0, size.1))
  }

  function ReadTensor(b: Bytes, pos: nat): (r: Result<(View, nat)>)
    requires pos <= |b|
    ensures r.Ok? ==> pos <= r.value.1 <= |b|
  {
    var fields :- ReadFields(b, pos);
    var size := fields.2;
    if size == 0 then Ok((View(fields.0, fields.1, 0, None), fields.3))
    else
      var padding :- ReadValue(b, fields.3, 4);
      if |b| - padding.1 < padding.0 + size then Err(UnexpectedEnd)
      else
        var offset := padding.1 + padding.0;
        Ok((View(fields.0, fields.1, size, Some(offset)), offset + size))
  }

  function ReadName(b: Bytes, pos: nat): (r: Result<(Bytes, nat)>)
    requires pos <= |b|
    ensures r.Ok? ==> pos <= r.value.1 <= |b|
  {
    var length :- ReadValue(b, pos, 4);
    if |b| - length.1 < length.0 then Err(UnexpectedEnd)
    else Ok((b[length.1..length.1 + length.0], length.1 + length.0))
  }

  function ReadEntry(b: Bytes, pos: nat): (r: Result<(Bytes, View, nat)>)
    requires pos <= |b|
    ensures r.Ok? ==> pos <= r.value.2 <= |b|
  {
    var name :- ReadName(b, pos);
    var tensor :- ReadTensor(b, name.1);
    Ok((name.0, tensor.0, tensor.1))
  }

  type EntryReader = nat -> Result<(Bytes, View, nat)>

  function ReaderOf(b: Bytes): EntryReader {
    (pos: nat) => if pos <= |b| then ReadEntry(b, pos) else Err(UnexpectedEnd)
  }

  /** `count` more entries and where they end; the first of two equal names is kept. */
  function ReadEntries(read: EntryReader, views: Views, pos: nat, count: nat): Result<(Views, nat)>
    decreases count
  {
    if count == 0 then Ok((views, pos))
    else
      var entry :- read(pos);
      ReadEntries(read, WithView(views, entry.0, entry.1), entry.2, count - 1)
  }

  ghost predicate Reads(read: EntryReader, b: Bytes) {
    forall pos: nat {:trigger ReadEntry(b, pos)} :: pos <= |b| ==> read(pos) == ReadEntry(b, pos)
  }

  function WithView(views: Views, name: Bytes, view: View): Views {
    if name in views then views else views[name := view]
  }

  /** A whole dictionary, with the number of bytes it occupies. */
  function Parse(b: Bytes): Result<(Views, nat)> {
    if |b| < 8 then Err(UnexpectedEnd)
    else if b[..8] != MAGIC then Err(InvalidMagic)
    else
      var version :- ReadValue(b, 8, 4);
      if version.0 != VERSION then Err(UnsupportedVersion)
      else
        var count :- ReadValue(b, 12, 4);
        ReadEntries(ReaderOf(b), map[], count.1, count.0)
  }

  // ---- The parser ------------------------------------------------------------------------------

  class MemoryReader {
    const buffer: Bytes
    var cur: nat

    ghost predicate Valid()
      reads this
    {
      cur <= |buffer|
    }

    constructor (buffer: Bytes)
      ensures Valid() && this.buffer == buffer && cur == 0
    {
      this.buffer, cur := buffer, 0;
    }

    method Read(n: nat) returns (r: Result<nat>)
      requires Valid()
      modifies this
      ensures Valid()
      ensures match ReadValue(buffer, old(cur), n)
              case Ok(read) => r == Ok(read.0) && cur == read.1
              case Err(error) => r == Err(error)
    {
      if |buffer| - cur < n {
        return Err(UnexpectedEnd);
      }
      r := Ok(Value(buffer[cur..cur + n]));
      cur := cur + n;
    }

    method ReadBytes(n: nat) returns (r: Result<Bytes>)
      requires Valid()
      modifies this
      ensures Valid()
      ensures r.Ok? <==> old(cur) + n <= |buffer|
      ensures r.Ok? ==> cur == old(cur) + n && r.value == buffer[old(cur)..cur]
      ensures r.Err? ==> r.error == UnexpectedEnd
    {
      if n == 0 {
        return Ok([]);
      }
      if |buffer| - cur < n {
        return Err(UnexpectedEnd);
      }
      r := Ok(buffer[cur..cur + n]);
      cur := cur + n;
    }

    method ReadEntryName() returns (r: Result<Bytes>)
      requires Valid()
      modifies this
      ensures Valid()
      ensures match ReadName(buffer, old(cur))
              case Ok(read) => r == Ok(read.0) && cur == read.1
              case Err(error) => r == Err(error)
    {
      var length :- Read(4);
      r := ReadBytes(length);
    }

    method Skip(n: nat) returns (r: Result<()>)
      requires Valid()
      modifies this
      ensures Valid()
      ensures r.Ok? <==> old(cur) + n <= |buffer|
      ensures r.Ok? ==> cur == old(cur) + n
      ensures r.Err? ==> r.error == UnexpectedEnd
    {
      if n == 0 {
        return Ok(());
      }
      if |buffer| - cur < n {
        return Err(UnexpectedEnd);
      }
      cur := cur + n;
      r := Ok(());
    }

    method ReadDims(ndim: nat) returns (r: Result<seq<nat>>)
      requires Valid()
      modifies this
      ensures Valid()
      ensures match ReadShape(buffer, old(cur), ndim)
              case Ok(read) => r == Ok(read.0) && cur == read.1
              case Err(error) => r == Err(error)
    {
      var shape := [];
      for i := 0 to ndim
        invariant Valid() && ReadShape(buffer, old(cur), i) == Ok((shape, cur))
      {
        var dim := Read(8);
        if dim.Err? {
          ShapeFails(buffer, old(cur), i + 1, ndim);
          return Err(dim.error);
        }
        shape := shape + [dim.value];
      }
      return Ok(shape);
    }

    method ReadTensorFields() returns (r: Result<(DType, seq<nat>, nat)>)
      requires Valid()
      modifies this
      ensures Valid()
      ensures match ReadFields(buffer, old(cur))
              case Ok(read) => r == Ok((read.0, read.1, read.2)) && cur == read.3
              case Err(error) => r == Err(error)
    {
      var code :- Read(4);
      var ndim :- Read(8);
      var shape :- ReadDims(ndim);
      var size :- Read(8);
      var dtype :- FromCode(code);
      var dataSize := ComputeSize(dtype, shape);
      if dataSize != size {
        return Err(SizeMismatch);
      }
      return Ok((dtype, shape, dataSize));
    }

    method ReadTensorView() returns (r: Result<View>)
      requires Valid()
      modifies this
      ensures Valid()
      ensures match ReadTensor(buffer, old(cur))
              case Ok(read) => r == Ok(read.0) && cur == read.1
              case Err(error) => r == Err(error)
    {
      var fields :- ReadTensorFields();
      var size := fields.2;
      if size == 0 {
        return Ok(View(fields.0, fields.1, 0, None));
      }
      var padding :- Read(4);
      if padding > 0 {
        var _ :- Skip(padding);
      }
      var offset := cur;
      var _ :- Skip(size);
      return Ok(View(fields.0, fields.1, size, Some(offset)));
    }
  }

  lemma {:induction false} ShapeFails(b: Bytes, pos: nat, k: nat, ndim: nat)
    requires pos <= |b| && k <= ndim && ReadShape(b, pos, k).Err?
    ensures ReadShape(b, pos, ndim) == ReadShape(b, pos, k)
    decreases ndim
  {
    if k < ndim {
      ShapeFails(b, pos, k, ndim - 1);
    }
  }

  method ReadEntryFrom(reader: MemoryReader) returns (r: Result<(Bytes, View)>)
    requires reader.Valid()
    modifies reader
    ensures reader.Valid()
    ensures match ReadEntry(reader.buffer, old(reader.cur))
            case Ok(read) => r == Ok((read.0, read.1)) && reader.cur == read.2
            case Err(error) => r == Err(error)
  {
    var name :- reader.ReadEntryName();
    var view :- reader.ReadTensorView();
    return Ok((name, view));
  }

  method ReadEntriesFrom(reader: MemoryReader, count: nat, ghost read: EntryReader) returns (r: Result<Views>)
    requires reader.Valid() && Reads(read, reader.buffer)
    modifies reader
    ensures match ReadEntries(read, map[], old(reader.cur), count)
            case Ok(found) => r == Ok(found.0)
            case Err(error) => r == Err(error)
  {
    var views: Views := map[];
    ghost var all := ReadEntries(read, map[], reader.cur, count);
    for i := 0 to count
      invariant reader.Valid()
      invariant ReadEntries(read, views, reader.cur, count - i) == all
    {
      var entry :- ReadEntryFrom(reader);
      if entry.0 !in views {
        views := views[entry.0 := entry.1];
      }
    }
    return Ok(views);
  }

  method ParseFromMemoryZeroCopy(b: Bytes) returns (r: Result<Views>)
    ensures match Parse(b)
            case Ok(read) => r == Ok(read.0)
            case Err(error) => r == Err(error)
  {
    var reader := new MemoryReader(b);
    var magic :- reader.ReadBytes(8);
    assert magic == b[..8];
    if magic != MAGIC {
      return Err(InvalidMagic);
    }
    var version :- reader.Read(4);
    if version != VERSION {
      return Err(UnsupportedVersion);
    }
    var count :- reader.Read(4);
    r := ReadEntriesFrom(reader, count, ReaderOf(b));
  }
}
