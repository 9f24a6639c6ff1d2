/** Four-bit row quantisation over exact reals: the loop that packs a row in place, the tensor
    expression it mirrors, and the decoder. */
module Quantizer {
  import opened RealOrder

  const EPSILON: real := 0.000001

  // ---- Rounding --------------------------------------------------------------------------------

  /** Round to the nearest integer, halves to the even one. */
  function Round(x: real): (n: int)
    ensures -0.5 <= n as real - x <= 0.5
    ensures n as real - x == 0.5 || n as real - x == -0.5 ==> n % 2 == 0
  {
    var f := x.Floor;
    var d := x - f as real;
    if d < 0.5 then f else if d > 0.5 then f + 1 else if f % 2 == 0 then f else f + 1
  }

  lemma RoundMonotone(x: real, y: real)
    requires x <= y
    ensures Round(x) <= Round(y)
  {
    if x.Floor == y.Floor {
    } else {
      assert x.Floor < y.Floor;
    }
  }

  lemma RoundInteger(n: int)
    ensures Round(n as real) == n
  {
  }

  function ClampReal(x: real, lo: real, hi: real): real {
    if x < lo then lo else if hi < x then hi else x
  }

  function ClampInt(n: int, lo: int, hi: int): int {
    if n < lo then lo else if hi < n then hi else n
  }

  /** Clamping before rounding and rounding before clamping agree. */
  lemma ClampCommutes(x: real)
    ensures Round(ClampReal(x, 0.0, 15.0)) == ClampInt(Round(x), 0, 15)
    ensures 0 <= Round(ClampReal(x, 0.0, 15.0)) <= 15
  {
    RoundInteger(0);
    RoundInteger(15);
    if x < 0.0 {
      RoundMonotone(x, 0.0);
    } else if x > 15.0 {
      RoundMonotone(15.0, x);
    } else {
      RoundMonotone(0.0, x);
      RoundMonotone(x, 15.0);
    }
  }

  // ---- The tensor expression -------------------------------------------------------------------

  function RowMin(row: seq<real>): real
    requires row != []
  {
    if |row| == 1 then row[0]
    else
      var m := RowMin(row[..|row| - 1]);
      if row[|row| - 1] < m then row[|row| - 1] else m
  }

  function RowMax(row: seq<real>): real
    requires row != []
  {
    if |row| == 1 then row[0]
    else
      var m := RowMax(row[..|row| - 1]);
      if m < row[|row| - 1] then row[|row| - 1] else m
  }

  /** Both bounds are attained. */
  lemma {:induction false} BoundsAttained(row: seq<real>)
    requires row != []
    ensures RowMin(row) in row && RowMax(row) in row
    decreases |row|
  {
    if |row| == 1 {
    } else {
      BoundsAttained(row[..|row| - 1]);
    }
  }

  lemma {:induction false} MinMax(row: seq<real>, i: nat)
    requires i < |row|
    ensures RowMin(row) <= row[i] <= RowMax(row)
    decreases |row|
  {
    if i == |row| - 1 {
    } else {
      MinMax(row[..|row| - 1], i);
    }
  }

  function Normalized(v: real, min: real, max: real): real
    requires min <= max
  {
    (v - min) / (max - min + EPSILON)
  }

  function Code(v: real, min: real, max: real): (code: int)
    requires min <= max
  {
    ClampInt(Round(Normalized(v, min, max) * 15.0), 0, 15)
  }

  function Codes(row: seq<real>): (codes: seq<int>)
    requires row != []
    ensures |codes| == |row| && forall i :: 0 <= i < |row| ==> 0 <= codes[i] <= 15
  {
    MinMax(row, 0);
    seq(|row|, i requires 0 <= i < |row| => Code(row[i], RowMin(row), RowMax(row)))
  }

  function Half(cols: nat): nat {
    (cols + 1) / 2
  }

  /** `chunk(2)`: one piece when the row has a single column. */
  function Chunk2(codes: seq<int>): seq<seq<int>> {
    var half := Half(|codes|);
    if half < |codes| then [codes[..half], codes[half..]] else [codes]
  }

  function Padded(codes: seq<int>, n: nat): (padded: seq<int>)
    ensures |padded| == n
  {
    seq(n, i => if 0 <= i < |codes| then codes[i] else 0)
  }

  /** Codes packed two to a byte, in 8-bit arithmetic. */
  function PackCodes(codes: seq<int>): seq<int> {
    var chunks := Chunk2(codes);
    var second := if |chunks| > 1 then Padded(chunks[1], |chunks[0]|) else Padded([], |chunks[0]|);
    seq(|chunks[0]|, i requires 0 <= i < |chunks[0]| => (chunks[0][i] * 16 + second[i]) % 256)
  }

  function PackedExact(row: seq<real>): seq<int>
    requires row != []
  {
    PackCodes(Codes(row))
  }

  ghost predicate Nibbled(codes: seq<int>) {
    codes != [] && forall i :: 0 <= i < |codes| ==> 0 <= codes[i] <= 15
  }

  /** The second code of byte `i`: zero where an odd row ends. */
  function LowCode(codes: seq<int>, i: nat): int {
    if i + Half(|codes|) < |codes| then codes[i + Half(|codes|)] else 0
  }

  lemma Halves(codes: seq<int>)
    requires codes != []
    ensures Chunk2(codes)[0] == codes[..Half(|codes|)]
    ensures |Chunk2(codes)| > 1 <==> Half(|codes|) < |codes|
    ensures |Chunk2(codes)| > 1 ==> Chunk2(codes)[1] == codes[Half(|codes|)..]
  {
    if Half(|codes|) >= |codes| {
      assert codes[..Half(|codes|)] == codes;
    }
  }

  /** Two codes in one byte neither wrap nor mix. */
  lemma NibblePair(hi: int, lo: int)
    requires 0 <= hi <= 15 && 0 <= lo <= 15
    ensures (hi * 16 + lo) % 256 == hi * 16 + lo
    ensures (hi * 16 + lo) / 16 == hi && (hi * 16 + lo) % 16 == lo
  {
  }

  lemma BytesOf(codes: seq<int>)
    requires codes != []
    ensures |PackCodes(codes)| == Half(|codes|) <= |codes|
    ensures forall i :: 0 <= i < Half(|codes|) ==> PackCodes(codes)[i] == (codes[i] * 16 + LowCode(codes, i)) % 256
  {
    Halves(codes);
  }

  /** Byte `i` holds code `i` above code `i + half`, or above zero where an odd row ends. */
  lemma PackedAt(codes: seq<int>)
    requires Nibbled(codes)
    ensures |PackCodes(codes)| == Half(|codes|) <= |codes|
    ensures forall i :: 0 <= i < Half(|codes|) ==> PackCodes(codes)[i] == codes[i] * 16 + LowCode(codes, i)
  {
    BytesOf(codes);
    var packed := PackCodes(codes);
    forall i | 0 <= i < Half(|codes|) ensures packed[i] == codes[i] * 16 + LowCode(codes, i) {
      NibblePair(codes[i], LowCode(codes, i));
    }
  }

  // ---- The loop --------------------------------------------------------------------------------

  /** The code the loop computes: clamped first, then rounded. */
  function LoopCode(v: real, min: real, max: real): int
    requires min <= max
  {
    Round(ClampReal(Normalized(v, min, max) * 15.0, 0.0, 15.0))
  }

  lemma LoopCodeIsCode(v: real, min: real, max: real)
    requires min <= max
    ensures LoopCode(v, min, max) == Code(v, min, max) && 0 <= Code(v, min, max) <= 15
  {
    ClampCommutes(Normalized(v, min, max) * 15.0);
  }

  /** `(hi << 4) | lo`, and the two nibbles back. */
  lemma Nibbles(hi: bv8, lo: bv8)
    requires hi < 16 && lo < 16
    ensures (hi << 4) | lo == hi * 16 + lo
    ensures ((hi << 4) | lo) >> 4 == hi && ((hi << 4) | lo) & 15 == lo
  {
  }

  method MinMaxOf(row: seq<real>) returns (min: real, max: real)
    requires row != []
    ensures min == RowMin(row) && max == RowMax(row) && min <= max
  {
    min, max := row[0], row[0];
    assert row[..1] == [row[0]];
    for n := 1 to |row|
      invariant min == RowMin(row[..n]) && max == RowMax(row[..n]) && min <= max
    {
      assert row[..n + 1][..n] == row[..n];
      if row[n] < min { min := row[n]; }
      if max < row[n] { max := row[n]; }
    }
    assert row[..|row|] == row;
  }

  lemma CodesOf(row: seq<real>)
    requires row != []
    ensures RowMin(row) <= RowMax(row) && Nibbled(Codes(row))
    ensures forall i :: 0 <= i < |row| ==> LoopCode(row[i], RowMin(row), RowMax(row)) == Codes(row)[i]
  {
    MinMax(row, 0);
    forall i | 0 <= i < |row| ensures LoopCode(row[i], RowMin(row), RowMax(row)) == Codes(row)[i] {
      LoopCodeIsCode(row[i], RowMin(row), RowMax(row));
    }
  }

  /** The packing loop of one row, given what its codes are. */
  method PackLoop(row: seq<real>, min: real, max: real, ghost codes: seq<int>) returns (packed: seq<int>)
    requires min <= max && |codes| == |row| && Nibbled(codes)
    requires forall i :: 0 <= i < |row| ==> LoopCode(row[i], min, max) == codes[i]
    ensures packed == PackCodes(codes)
  {
    var cols, half := |row|, (|row| + 1) / 2;
    packed := [];
    for col := 0 to half
      invariant |packed| == col
      invariant forall i :: 0 <= i < col ==>
                  packed[i] == codes[i] * 16 + LowCode(codes, i)
    {
      var hi := LoopCode(row[col], min, max);
      var lo := 0;
      if col + half < cols {
        lo := LoopCode(row[col + half], min, max);
      }
      packed := packed + [hi * 16 + lo];
    }
    PackedAt(codes);
  }

  // ---- Decoding --------------------------------------------------------------------------------

  /** The codes of a row of `cols` columns: high nibbles first, then low nibbles. */
  function Unpacked(packed: seq<int>, cols: nat): (codes: seq<int>)
    requires |packed| == Half(cols)
    ensures |codes| == cols
  {
    seq(cols, i requires 0 <= i < cols => if i < Half(cols) then packed[i] / 16 else packed[i - Half(cols)] % 16)
  }

  lemma UnpackAt(codes: seq<int>, packed: seq<int>, i: nat)
    requires Nibbled(codes) && i < |codes| && |packed| == Half(|codes|) <= |codes|
    requires forall j :: 0 <= j < |packed| ==> packed[j] == codes[j] * 16 + LowCode(codes, j)
    ensures Unpacked(packed, |codes|)[i] == codes[i]
  {
    var j := if i < Half(|codes|) then i else i - Half(|codes|);
    NibblePair(codes[j], LowCode(codes, j));
  }

  lemma UnpackCodes(codes: seq<int>)
    requires Nibbled(codes)
    ensures |PackCodes(codes)| == Half(|codes|) && Unpacked(PackCodes(codes), |codes|) == codes
  {
    PackedAt(codes);
    var packed := PackCodes(codes);
    forall i | 0 <= i < |codes| ensures Unpacked(packed, |codes|)[i] == codes[i] {
      UnpackAt(codes, packed, i);
    }
  }

  /** Unpacking recovers every code. */
  lemma UnpackRecovers(row: seq<real>)
    requires row != []
    ensures |PackedExact(row)| == Half(|row|) && Unpacked(PackedExact(row), |row|) == Codes(row)
  {
    UnpackCodes(Codes(row));
  }

  lemma QuotientMonotone(a: real, b: real, r: real)
    requires r > 0.0 && a <= b
    ensures a / r * 15.0 <= b / r * 15.0
  {
    QuotientOrder(a, b, r);
  }

  /** Larger values never get smaller codes. */
  lemma CodesMonotone(v: real, w: real, min: real, max: real)
    requires min <= max && v <= w
    ensures Code(v, min, max) <= Code(w, min, max)
  {
    QuotientMonotone(v - min, w - min, max - min + EPSILON);
    RoundMonotone(Normalized(v, min, max) * 15.0, Normalized(w, min, max) * 15.0);
  }

  function Decoded(code: int, min: real, max: real): real {
    code as real / 15.0 * (max - min) + min
  }

  lemma HalfOf(d: real, m: real)
    requires -0.5 <= d <= 0.5 && m >= 0.0
    ensures -(m / 2.0) <= d * m <= m / 2.0
  {
    assert (0.5 - d) * m >= 0.0;
    assert (d + 0.5) * m >= 0.0;
  }

  lemma Fraction(n: real, e: real)
    requires 0.0 <= n <= 1.0 && e > 0.0
    ensures 0.0 <= n * e <= e
  {
    assert (1.0 - n) * e >= 0.0;
  }

  /** The distance between a decoded code and its value, for a code `d` away from the exact position. */
  lemma ErrorTerm(n: real, d: real, m: real, e: real)
    ensures (n * 15.0 + d) / 15.0 * m - n * (m + e) == d * m / 15.0 - n * e
  {
    calc {
      (n * 15.0 + d) / 15.0 * m - n * (m + e);
      (n + d / 15.0) * m - n * (m + e);
      n * m + d / 15.0 * m - n * m - n * e;
      d * m / 15.0 - n * e;
    }
  }

  lemma NormalizedRange(v: real, min: real, max: real) returns (n: real)
    requires min <= v <= max
    ensures n == Normalized(v, min, max) && 0.0 <= n <= 1.0
    ensures n * (max - min + EPSILON) == v - min
  {
    var r := max - min + EPSILON;
    n := (v - min) / r;
    DivMul(v - min, r);
    MulOrder(0.0, n, r);
    MulOrder(n, 1.0, r);
  }

  lemma ErrorFrom(c: real, n: real, d: real, m: real, e: real, v: real, min: real)
    requires c == n * 15.0 + d && n * (m + e) == v - min
    ensures c / 15.0 * m + min - v == d * m / 15.0 - n * e
  {
    ErrorTerm(n, d, m, e);
  }

  lemma Combine(p: real, q: real, m: real, e: real)
    requires -(m / 2.0) <= p <= m / 2.0 && 0.0 <= q <= e
    ensures -(m / 30.0 + e) <= p / 15.0 - q <= m / 30.0 + e
  {
  }

  lemma NearBound(c: real, n: real, m: real, e: real, v: real, min: real)
    requires 0.0 <= n <= 1.0 && m >= 0.0 && e > 0.0 && n * (m + e) == v - min
    requires -0.5 <= c - n * 15.0 <= 0.5
    ensures -(m / 30.0 + e) <= c / 15.0 * m + min - v <= m / 30.0 + e
  {
    var d := c - n * 15.0;
    ErrorFrom(c, n, d, m, e, v, min);
    HalfOf(d, m);
    Fraction(n, e);
    Combine(d * m, n * e, m, e);
  }

  /** Inside the row's range the code is the nearest step; nothing is clamped. */
  lemma CodeNear(v: real, min: real, max: real) returns (n: real)
    requires min <= v <= max
    ensures 0.0 <= n <= 1.0 && n * (max - min + EPSILON) == v - min
    ensures -0.5 <= Code(v, min, max) as real - n * 15.0 <= 0.5
  {
    n := NormalizedRange(v, min, max);
    NoClamp(n * 15.0);
  }

  lemma NoClamp(x: real)
    requires 0.0 <= x <= 15.0
    ensures ClampInt(Round(x), 0, 15) == Round(x)
    ensures -0.5 <= ClampInt(Round(x), 0, 15) as real - x <= 0.5
  {
    RoundInteger(0);
    RoundInteger(15);
    RoundMonotone(0.0, x);
    RoundMonotone(x, 15.0);
  }

  /** Decoding from the row minimum and maximum errs by at most half a step plus the constant that
      keeps the range positive. */
  lemma ErrorBound(v: real, min: real, max: real)
    requires min <= v <= max
    ensures var error := Decoded(Code(v, min, max), min, max) - v;
            -((max - min) / 30.0 + EPSILON) <= error <= (max - min) / 30.0 + EPSILON
  {
    var n := CodeNear(v, min, max);
    NearBound(Code(v, min, max) as real, n, max - min, EPSILON, v, min);
  }

  /** For every row, every column decodes to its value up to that bound. */
  lemma RowErrorBound(row: seq<real>, i: nat)
    requires i < |row|
    ensures |PackedExact(row)| == Half(|row|)
    ensures var min, max := RowMin(row), RowMax(row);
            var error := Decoded(Unpacked(PackedExact(row), |row|)[i], min, max) - row[i];
            -((max - min) / 30.0 + EPSILON) <= error <= (max - min) / 30.0 + EPSILON
  {
    UnpackRecovers(row);
    MinMax(row, i);
    ErrorBound(row[i], RowMin(row), RowMax(row));
  }

  // ---- What a compressed row holds -------------------------------------------------------------

  /** The least and the greatest value of the row. */
  ghost predicate IsRange(row: seq<real>, min: real, max: real) {
    min in row && max in row && forall i :: 0 <= i < |row| ==> min <= row[i] <= max
  }

  lemma RangeOf(row: seq<real>)
    requires row != []
    ensures IsRange(row, RowMin(row), RowMax(row))
  {
    BoundsAttained(row);
    forall i | 0 <= i < |row| ensures RowMin(row) <= row[i] <= RowMax(row) {
      MinMax(row, i);
    }
  }

  /** The code in a row's bytes: the first half of the columns in the high nibbles, the rest in the low
      ones. */
  function NibbleAt(packed: seq<int>, cols: nat, i: nat): int
    requires i < cols && |packed| == (cols + 1) / 2
  {
    if i < (cols + 1) / 2 then packed[i] / 16 else packed[i - (cols + 1) / 2] % 16
  }

  /** The least value gets code 0 and the greatest code 15, unless the row is at most 0.000029
      wide; every code is within half a step of its value's place in the row's range. */
  ghost predicate GoodCode(v: real, code: int, min: real, max: real) {
    var width := max - min + 0.000001;
    && 0 <= code <= 15
    && (v == min ==> code == 0)
    && (v == max > min ==> (code == 15 <==> max - min > 0.000029))
    && -0.5 * width <= code as real * width - 15.0 * (v - min) <= 0.5 * width
  }

  ghost predicate ColumnPacked(row: seq<real>, packed: seq<int>, min: real, max: real, i: nat)
    requires i < |row| && |packed| == (|row| + 1) / 2
  {
    GoodCode(row[i], NibbleAt(packed, |row|, i), min, max)
  }

  lemma LeastCode(min: real, max: real)
    requires min <= max
    ensures Code(min, min, max) == 0
  {
    assert Normalized(min, min, max) == 0.0;
    RoundInteger(0);
  }

  /** The greatest value of a row gets the greatest code exactly if the row is wider than 29 epsilon. */
  lemma GreatestCode(min: real, max: real)
    requires min < max
    ensures Code(max, min, max) == 15 <==> max - min > 29.0 * EPSILON
  {
    var d := max - min;
    var n := NormalizedRange(max, min, max);
    var x := n * 15.0;
    assert 0.0 <= x <= 15.0;
    NoClamp(x);
    TopRound(x);
    TopShare(n, d, EPSILON);
  }

  lemma TopRound(x: real)
    requires 0.0 <= x <= 15.0
    ensures Round(x) == 15 <==> x > 14.5
  {
  }

  lemma TopShare(n: real, d: real, e: real)
    requires n * (d + e) == d && d > 0.0 && e > 0.0
    ensures n * 15.0 > 14.5 <==> d > 29.0 * e
  {
    assert (n * 15.0 - 14.5) * (d + e) == 15.0 * d - 14.5 * (d + e);
    assert 15.0 * d - 14.5 * (d + e) == 0.5 * (d - 29.0 * e);
    MulOrder(14.5, n * 15.0, d + e);
    MulOrder(n * 15.0, 14.5, d + e);
  }

  lemma CodeDistance(v: real, min: real, max: real)
    requires min <= v <= max
    ensures var r := max - min + EPSILON;
            -0.5 * r <= Code(v, min, max) as real * r - 15.0 * (v - min) <= 0.5 * r
  {
    var n := CodeNear(v, min, max);
    ScaledNear(Code(v, min, max) as real, n, max - min + EPSILON, v - min);
  }

  lemma ScaledNear(c: real, n: real, r: real, x: real)
    requires r > 0.0 && n * r == x && -0.5 <= c - n * 15.0 <= 0.5
    ensures -0.5 * r <= c * r - 15.0 * x <= 0.5 * r
  {
    var d := c - n * 15.0;
    calc {
      d * r;
      (c - n * 15.0) * r;
      c * r - n * 15.0 * r;
      { assert n * 15.0 * r == 15.0 * (n * r); }
      c * r - 15.0 * x;
    }
    MulOrder(-0.5, d, r);
    MulOrder(d, 0.5, r);
  }

  lemma CodeIsGood(v: real, min: real, max: real)
    requires min <= v <= max
    ensures GoodCode(v, Code(v, min, max), min, max)
  {
    LeastCode(min, max);
    CodeDistance(v, min, max);
    if v == max > min {
      GreatestCode(min, max);
    }
  }

  lemma NibbleIsCode(row: seq<real>, i: nat)
    requires i < |row|
    ensures |PackedExact(row)| == (|row| + 1) / 2 && RowMin(row) <= RowMax(row)
    ensures NibbleAt(PackedExact(row), |row|, i) == Code(row[i], RowMin(row), RowMax(row))
  {
    MinMax(row, i);
    UnpackRecovers(row);
    assert Unpacked(PackedExact(row), |row|)[i] == Codes(row)[i];
  }

  lemma ColumnCode(row: seq<real>, i: nat)
    requires i < |row|
    ensures |PackedExact(row)| == (|row| + 1) / 2
    ensures ColumnPacked(row, PackedExact(row), RowMin(row), RowMax(row), i)
  {
    MinMax(row, i);
    NibbleIsCode(row, i);
    CodeIsGood(row[i], RowMin(row), RowMax(row));
  }

  /** The loop packs every row exactly as the tensor expression does, whatever its width. */
  method SqCompressRow(row: seq<real>) returns (packed: seq<int>, min: real, max: real)
    requires row != []
    ensures packed == PackedExact(row) && min == RowMin(row) && max == RowMax(row)
    ensures IsRange(row, min, max)
    ensures |packed| == (|row| + 1) / 2 && forall i :: 0 <= i < |packed| ==> 0 <= packed[i] < 256
    ensures forall i :: 0 <= i < |row| ==> ColumnPacked(row, packed, min, max, i)
  {
    min, max := MinMaxOf(row);
    CodesOf(row);
    packed := PackLoop(row, min, max, Codes(row));
    RangeOf(row);
    PackedAt(Codes(row));
    forall i | 0 <= i < |row| ensures ColumnPacked(row, packed, min, max, i) {
      ColumnCode(row, i);
    }
  }

  /** The row's bytes and its range. */
  ghost predicate RowCompressed(row: seq<real>, packed: seq<int>, scale: (real, real)) {
    && row != [] && packed == PackedExact(row) && IsRange(row, scale.0, scale.1)
    && |packed| == (|row| + 1) / 2
    && forall i :: 0 <= i < |row| ==> ColumnPacked(row, packed, scale.0, scale.1, i)
  }

  method SqCompress(rows: seq<seq<real>>) returns (packed: seq<seq<int>>, scale: seq<(real, real)>)
    requires forall r :: 0 <= r < |rows| ==> rows[r] != []
    ensures |packed| == |scale| == |rows|
    ensures forall r :: 0 <= r < |rows| ==> RowCompressed(rows[r], packed[r], scale[r])
  {
    packed, scale := [], [];
    for r := 0 to |rows|
      invariant |packed| == |scale| == r
      invariant forall k :: 0 <= k < r ==> RowCompressed(rows[k], packed[k], scale[k])
    {
      var bytes, min, max := SqCompressRow(rows[r]);
      packed, scale := packed + [bytes], scale + [(min, max)];
    }
  }
}
