/** CacheBlend: choose the tokens to recompute, then overwrite their rows in the retrieved KV. */
module BlendExecutor {
  import opened Options
  import opened BlendRetriever

  // ---- Selected indices ------------------------------------------------------------------------

  ghost predicate Increasing(xs: seq<nat>) {
    forall i, j :: 0 <= i < j < |xs| ==> xs[i] < xs[j]
  }

  /** The tokens from `lo` up to `hi` that the mask selects, in order. */
  function Between(mask: seq<bool>, lo: nat, hi: nat): seq<nat>
    requires hi <= |mask|
  {
    if hi <= lo then []
    else if mask[hi - 1] then Between(mask, lo, hi - 1) + [hi - 1]
    else Between(mask, lo, hi - 1)
  }

  /** `xs` is strictly increasing and exactly the selected tokens of the range. */
  ghost predicate Selects(mask: seq<bool>, xs: seq<nat>, lo: nat, hi: nat)
    requires hi <= |mask|
  {
    && Increasing(xs)
    && (forall i :: 0 <= i < |xs| ==> lo <= xs[i] < hi && mask[xs[i]])
    && (forall t: nat :: lo <= t < hi && mask[t] ==> t in xs)
  }

  lemma IncreasingMore(xs: seq<nat>, m: nat)
    requires Increasing(xs) && forall i :: 0 <= i < |xs| ==> xs[i] < m
    ensures Increasing(xs + [m])
  {
    var ys := xs + [m];
    forall i, j | 0 <= i < j < |ys| ensures ys[i] < ys[j] {
      assert ys[i] == xs[i];
    }
  }

  lemma CoverageMore(mask: seq<bool>, xs: seq<nat>, lo: nat, m: nat)
    requires lo <= m < |mask| && forall t: nat :: lo <= t < m && mask[t] ==> t in xs
    ensures forall t: nat :: lo <= t < m + 1 && mask[t] ==> t in xs + [m]
  {
    forall t: nat | lo <= t < m + 1 && mask[t] ensures t in xs + [m] {
      if t == m {
        assert (xs + [m])[|xs|] == t;
      }
    }
  }

  /** One more token of the range: appended if the mask selects it. */
  lemma SelectsOneMore(mask: seq<bool>, xs: seq<nat>, ys: seq<nat>, lo: nat, m: nat)
    requires lo <= m < |mask| && Selects(mask, xs, lo, m) && ys == if mask[m] then xs + [m] else xs
    ensures Selects(mask, ys, lo, m + 1)
  {
    if mask[m] {
      IncreasingMore(xs, m);
      CoverageMore(mask, xs, lo, m);
    }
  }

  lemma {:induction false} BetweenMeaning(mask: seq<bool>, lo: nat, hi: nat)
    requires hi <= |mask|
    ensures Selects(mask, Between(mask, lo, hi), lo, hi)
    decreases hi
  {
    if hi <= lo {
    } else {
      BetweenMeaning(mask, lo, hi - 1);
      SelectsOneMore(mask, Between(mask, lo, hi - 1), Between(mask, lo, hi), lo, hi - 1);
    }
  }

  lemma {:induction false} BetweenJoin(mask: seq<bool>, lo: nat, mid: nat, hi: nat)
    requires lo <= mid <= hi <= |mask|
    ensures Between(mask, lo, mid) + Between(mask, mid, hi) == Between(mask, lo, hi)
    decreases hi
  {
    if hi == mid {
    } else {
      BetweenJoin(mask, lo, mid, hi - 1);
    }
  }

  /** A range of the selected tokens stands between the counts before and after it. */
  lemma BetweenSlice(mask: seq<bool>, a: nat, b: nat, n: nat, front: seq<nat>)
    requires a <= b <= n <= |mask|
    ensures var all, i, j := Between(mask, 0, n), |Between(mask, 0, a)|, |Between(mask, 0, b)|;
            i <= j <= |all| && (front + all)[|front| + i..|front| + j] == Between(mask, a, b)
  {
    BetweenJoin(mask, 0, a, b);
    BetweenJoin(mask, 0, b, n);
    Middle(front, Between(mask, 0, a), Between(mask, a, b), Between(mask, b, n));
  }

  lemma Middle(front: seq<nat>, x: seq<nat>, y: seq<nat>, z: seq<nat>)
    ensures (front + (x + y + z))[|front| + |x|..|front| + |x + y|] == y
  {
  }

  /** `part` is what the start locations cut out for query `q`, after `skip` other indexes. */
  ghost predicate SplitAt(indexes: seq<nat>, skip: nat, starts: seq<nat>, q: nat, part: seq<nat>) {
    && q + 1 < |starts| && skip + starts[q] <= skip + starts[q + 1] <= |indexes|
    && indexes[skip + starts[q]..skip + starts[q + 1]] == part
  }

  function Shifted(xs: seq<nat>, distance: nat): (ys: seq<nat>)
    ensures |ys| == |xs| && forall i :: 0 <= i < |xs| ==> ys[i] == xs[i] + distance
  {
    seq(|xs|, i requires 0 <= i < |xs| => xs[i] + distance)
  }

  lemma {:induction false} BetweenShifted(mask: seq<bool>, lo: nat, n: nat)
    requires lo + n <= |mask|
    ensures Shifted(Between(mask[lo..lo + n], 0, n), lo) == Between(mask, lo, lo + n)
    decreases n
  {
    if n == 0 {
    } else {
      var local, shorter := mask[lo..lo + n], mask[lo..lo + n - 1];
      BetweenShifted(mask, lo, n - 1);
      BetweenAgrees(local, shorter, n - 1);
      assert local[n - 1] == mask[lo + n - 1];
    }
  }

  lemma {:induction false} BetweenAgrees(a: seq<bool>, b: seq<bool>, n: nat)
    requires n <= |a| && n <= |b| && a[..n] == b[..n]
    ensures Between(a, 0, n) == Between(b, 0, n)
  {
    if n == 0 {
    } else {
      assert a[..n - 1] == a[..n][..n - 1] && b[..n - 1] == b[..n][..n - 1];
      assert a[n - 1] == a[..n][n - 1] && b[n - 1] == b[..n][n - 1];
      BetweenAgrees(a, b, n - 1);
    }
  }

  method MaskToIndices(mask: seq<bool>) returns (indices: seq<nat>)
    ensures indices == Between(mask, 0, |mask|)
  {
    indices := [];
    for n := 0 to |mask|
      invariant indices == Between(mask, 0, n)
    {
      if mask[n] {
        indices := indices + [n];
      }
    }
  }

  /** The selected tokens of one query, as positions in the batch. */
  method SelectInQuery(valid: seq<bool>, from: nat, end: nat, top: set<nat>) returns (selected: seq<nat>)
    requires from <= end <= |valid|
    ensures selected == Between(Selection(valid, top), from, end)
  {
    var localMask := seq(end - from, j requires 0 <= j < end - from => !valid[from + j] || from + j in top);
    assert localMask == Selection(valid, top)[from..end];
    var local := MaskToIndices(localMask);
    BetweenShifted(Selection(valid, top), from, end - from);
    selected := Shifted(local, from);
  }

  /** Query boundaries: from 0 to the number of tokens, in order. */
  ghost predicate Bounds(starts: seq<nat>, total: nat) {
    && |starts| >= 1 && starts[0] == 0 && starts[|starts| - 1] == total
    && forall q, p :: 0 <= q <= p < |starts| ==> starts[q] <= starts[p]
  }

  /** The tokens to recompute: those without retrieved KV, and the ones the top-k search chose. */
  function Selection(valid: seq<bool>, top: set<nat>): (mask: seq<bool>)
    ensures |mask| == |valid| && forall t :: 0 <= t < |valid| ==> (mask[t] <==> !valid[t] || t in top)
  {
    seq(|valid|, t requires 0 <= t < |valid| => !valid[t] || t in top)
  }

  // ---- Scatter and positions -------------------------------------------------------------------

  predicate InRange(indexes: seq<nat>, total: nat) {
    forall i :: 0 <= i < |indexes| ==> indexes[i] < total
  }

  /** No later index is the same. */
  ghost predicate IsLast(indexes: seq<nat>, i: nat)
    requires i < |indexes|
  {
    forall j :: i < j < |indexes| ==> indexes[j] != indexes[i]
  }

  lemma {:induction false} LastOf(indexes: seq<nat>, t: nat) returns (i: nat)
    requires t in indexes
    ensures i < |indexes| && indexes[i] == t && IsLast(indexes, i)
  {
    var n := |indexes| - 1;
    if indexes[n] == t {
      i := n;
    } else {
      i := LastOf(indexes[..n], t);
    }
  }

  /** `a[indexes] = rows`, where the last of several rows for one index stays. */
  method Scatter<R>(a: array<Cell<R>>, indexes: seq<nat>, rows: seq<R>)
    requires |rows| == |indexes| && InRange(indexes, a.Length)
    modifies a
    ensures forall i :: 0 <= i < |indexes| && IsLast(indexes, i) ==> a[indexes[i]] == Defined(rows[i])
    ensures forall t :: 0 <= t < a.Length && t !in indexes ==> a[t] == old(a[t])
  {
    for n := 0 to |indexes|
      invariant forall i :: 0 <= i < n && IsLast(indexes, i) ==> a[indexes[i]] == Defined(rows[i])
      invariant forall t :: 0 <= t < a.Length && t !in indexes ==> a[t] == old(a[t])
    {
      a[indexes[n]] := Defined(rows[n]);
    }
  }

  /** Token `t` of query `q` has position `t` minus the start of its query. */
  method BuildPositions(starts: seq<nat>, total: nat) returns (positions: seq<nat>)
    requires Bounds(starts, total)
    ensures |positions| == total
    ensures forall q, t :: 0 <= q < |starts| - 1 && starts[q] <= t < starts[q + 1] ==> positions[t] == t - starts[q]
  {
    positions := seq(total, t requires 0 <= t < total => t);
    for n := 0 to |starts| - 1
      invariant |positions| == total
      invariant forall q, t :: 0 <= q < n && starts[q] <= t < starts[q + 1] ==> positions[t] == t - starts[q]
      invariant forall t :: starts[n] <= t < total ==> positions[t] == t
    {
      var before := positions;
      positions := seq(total, t requires 0 <= t < total && |before| == total && (t >= starts[n] ==> before[t] == t) =>
                         if starts[n] <= t < starts[n + 1] then before[t] - starts[n] else before[t]);
    }
  }

  type Encoder<!R> = (nat, R) -> R

  /** A row moved from one position to another; undefined rows stay undefined. */
  function Moved<R>(encode: Encoder<R>, decode: Encoder<R>, cell: Cell<R>, source: nat, target: nat): Cell<R> {
    match cell
    case Undefined => Undefined
    case Defined(row) => Defined(encode(target, decode(source, row)))
  }

  datatype Fresh<+R> = Fresh(q: seq<R>, k: seq<R>, v: seq<R>)

  datatype BlendOutput<+R> =
    | BlendOutput(q: seq<R>, k: seq<Cell<R>>, v: seq<Cell<R>>, positions: seq<nat>, indices: seq<nat>,
                  queryStarts: Option<seq<nat>>)
    | AssertionError
    | IndexError

  function AllDefined<R>(rows: seq<R>): (cells: seq<Cell<R>>)
    ensures |cells| == |rows| && forall i :: 0 <= i < |rows| ==> cells[i] == Defined(rows[i])
  {
    seq(|rows|, i requires 0 <= i < |rows| => Defined(rows[i]))
  }

  function Pick<T>(xs: seq<T>, indexes: seq<nat>): (ys: seq<T>)
    requires InRange(indexes, |xs|)
    ensures |ys| == |indexes| && forall i :: 0 <= i < |indexes| ==> ys[i] == xs[indexes[i]]
  {
    seq(|indexes|, i requires 0 <= i < |indexes| => xs[indexes[i]])
  }

  class CacheBlendImpl<R(!new)> {
    const encoder: Option<Encoder<R>>
    const decoder: Option<Encoder<R>>
    var indexesInKv: seq<nat>

    constructor (encoder: Option<Encoder<R>>, decoder: Option<Encoder<R>>)
      ensures indexesInKv == [] && this.encoder == encoder && this.decoder == decoder
    {
      this.encoder, this.decoder, indexesInKv := encoder, decoder, [];
    }

    /** One call appends the selected tokens of all queries, in order; the new start locations count
        the selected tokens before each query and so cut what was appended query by query. */
    method SelectTokensAllQueries(valid: seq<bool>, starts: seq<nat>, top: set<nat>) returns (newStarts: seq<nat>)
      requires Bounds(starts, |valid|)
      modifies this
      ensures indexesInKv == old(indexesInKv) + Between(Selection(valid, top), 0, |valid|)
      ensures |newStarts| == |starts|
      ensures forall q :: 0 <= q < |starts| ==> newStarts[q] == |Between(Selection(valid, top), 0, starts[q])|
      ensures forall q :: 0 <= q < |starts| - 1 ==>
                SplitAt(indexesInKv, |old(indexesInKv)|, newStarts, q,
                        Between(Selection(valid, top), starts[q], starts[q + 1]))
    {
      newStarts := [0];
      ghost var mask := Selection(valid, top);
      for q := 0 to |starts| - 1
        invariant indexesInKv == old(indexesInKv) + Between(mask, 0, starts[q])
        invariant |newStarts| == q + 1
        invariant forall p :: 0 <= p <= q ==> newStarts[p] == |Between(mask, 0, starts[p])|
      {
        assert starts[q + 1] <= starts[|starts| - 1];
        var selected := SelectInQuery(valid, starts[q], starts[q + 1], top);
        BetweenJoin(mask, 0, starts[q], starts[q + 1]);
        newStarts := newStarts + [newStarts[q] + |selected|];
        indexesInKv := indexesInKv + selected;
      }
      forall q | 0 <= q < |starts| - 1
        ensures SplitAt(indexesInKv, |old(indexesInKv)|, newStarts, q, Between(mask, starts[q], starts[q + 1]))
      {
        BetweenSlice(mask, starts[q], starts[q + 1], |valid|, old(indexesInKv));
      }
    }

    /** The key is re-encoded from `source` to `target`, if there is an encoder and a decoder; a row that
        was never written stays unwritten. */
    ghost predicate Repositioned(before: Cell<R>, after: Cell<R>, source: nat, target: nat)
    {
      && (before.Undefined? ==> after.Undefined?)
      && (before.Defined? && encoder.Some? && decoder.Some? ==>
            after == Defined(encoder.value(target, decoder.value(source, before.row))))
      && (encoder.None? || decoder.None? ==> after == before)
    }

    /** The decoder takes away what the encoder adds. */
    ghost predicate Invertible()
    {
      && encoder.Some? && decoder.Some?
      && forall p: nat, x: R :: decoder.value(p, encoder.value(p, x)) == x
    }

    /** A row encoded at `source` is the same row encoded at `target` afterwards. */
    ghost predicate Carried(before: Cell<R>, after: Cell<R>, source: nat, target: nat)
      requires encoder.Some?
    {
      forall x: R :: before == Defined(encoder.value(source, x)) ==> after == Defined(encoder.value(target, x))
    }

    lemma RepositionCarries(before: Cell<R>, after: Cell<R>, source: nat, target: nat)
      requires Invertible() && Repositioned(before, after, source, target)
      ensures Carried(before, after, source, target)
    {
    }

    /** The retrieved keys at their positions in the query. */
    method Reposition(retrievedK: array<Cell<R>>, originalPositions: seq<nat>, starts: seq<nat>)
      returns (k: array<Cell<R>>)
      requires |originalPositions| == retrievedK.Length && Bounds(starts, retrievedK.Length)
      ensures k.Length == retrievedK.Length && (fresh(k) || k == retrievedK)
      ensures forall q, t :: 0 <= q < |starts| - 1 && starts[q] <= t < starts[q + 1] ==>
                Repositioned(retrievedK[t], k[t], originalPositions[t], t - starts[q])
    {
      if encoder.None? || decoder.None? {
        return retrievedK;
      }
      var positions := BuildPositions(starts, retrievedK.Length);
      k := new Cell<R>[retrievedK.Length](_ => Undefined);
      for n := 0 to retrievedK.Length
        invariant forall t :: 0 <= t < n ==>
                    k[t] == Moved(encoder.value, decoder.value, retrievedK[t], originalPositions[t], positions[t])
      {
        k[n] := Moved(encoder.value, decoder.value, retrievedK[n], originalPositions[n], positions[n]);
      }
    }

    /** The retrieved rows with the rows of the selected tokens overwritten by fresh ones. */
    ghost predicate Overwritten(k: seq<Cell<R>>, v: seq<Cell<R>>, rk: seq<Cell<R>>, rv: seq<Cell<R>>,
                                originalPositions: seq<nat>, starts: seq<nat>, rows: Fresh<R>)
      requires |k| == |v| == |rk| == |rv| == |originalPositions| && Bounds(starts, |k|)
      requires |rows.k| == |rows.v| == |indexesInKv|
      reads this
    {
      && InRange(indexesInKv, |k|)
      && (forall i :: 0 <= i < |indexesInKv| && IsLast(indexesInKv, i) ==>
            k[indexesInKv[i]] == Defined(rows.k[i]) && v[indexesInKv[i]] == Defined(rows.v[i]))
      && (forall q, t :: 0 <= q < |starts| - 1 && starts[q] <= t < starts[q + 1] && t !in indexesInKv ==>
            Repositioned(rk[t], k[t], originalPositions[t], t - starts[q]))
      && (forall t :: 0 <= t < |v| && t !in indexesInKv ==> v[t] == rv[t])
    }

    /** Every key that is not overwritten is carried from its original position to its position in the
        query. */
    ghost predicate KeysCarried(k: seq<Cell<R>>, rk: seq<Cell<R>>, originalPositions: seq<nat>, starts: seq<nat>)
      requires |k| == |rk| == |originalPositions| && Bounds(starts, |k|) && encoder.Some?
      reads this
    {
      forall q, t :: 0 <= q < |starts| - 1 && starts[q] <= t < starts[q + 1] && t !in indexesInKv ==>
        Carried(rk[t], k[t], originalPositions[t], t - starts[q])
    }

    lemma OverwrittenCarries(k: seq<Cell<R>>, v: seq<Cell<R>>, rk: seq<Cell<R>>, rv: seq<Cell<R>>,
                             originalPositions: seq<nat>, starts: seq<nat>, rows: Fresh<R>)
      requires |k| == |v| == |rk| == |rv| == |originalPositions| && Bounds(starts, |k|)
      requires |rows.k| == |rows.v| == |indexesInKv| && Invertible()
      requires Overwritten(k, v, rk, rv, originalPositions, starts, rows)
      ensures KeysCarried(k, rk, originalPositions, starts)
    {
      forall q, t | 0 <= q < |starts| - 1 && starts[q] <= t < starts[q + 1] && t !in indexesInKv
        ensures Carried(rk[t], k[t], originalPositions[t], t - starts[q])
      {
        RepositionCarries(rk[t], k[t], originalPositions[t], t - starts[q]);
      }
    }

    /** Layers from the third on: fails exactly when the fresh rows are not as many as the indexes, or
        an index lies outside the retrieved rows. */
    method BlendDeep(retrievedK: array<Cell<R>>, retrievedV: array<Cell<R>>, originalPositions: seq<nat>,
                     rows: Fresh<R>, positions: seq<nat>, starts: seq<nat>) returns (out: BlendOutput<R>)
      requires retrievedK != retrievedV && retrievedK.Length == retrievedV.Length == |originalPositions|
      requires Bounds(starts, retrievedK.Length) && |rows.k| == |rows.v|
      modifies retrievedK, retrievedV
      ensures out.AssertionError? <==> |indexesInKv| != |rows.k|
      ensures out.IndexError? <==> |indexesInKv| == |rows.k| && !InRange(indexesInKv, retrievedK.Length)
      ensures out.BlendOutput? ==>
                && |out.k| == |out.v| == retrievedK.Length && out.v == retrievedV[..]
                && out.q == rows.q
                && out.indices == indexesInKv && out.positions == positions && out.queryStarts == None
                && Overwritten(out.k, out.v, old(retrievedK[..]), old(retrievedV[..]), originalPositions, starts, rows)
      ensures out.BlendOutput? && Invertible() ==>
                KeysCarried(out.k, old(retrievedK[..]), originalPositions, starts)
    {
      if |indexesInKv| != |rows.k| {
        return AssertionError;
      }
      if !InRange(indexesInKv, retrievedK.Length) {
        return IndexError;
      }
      var k := Reposition(retrievedK, originalPositions, starts);
      Scatter(k, indexesInKv, rows.k);
      Scatter(retrievedV, indexesInKv, rows.v);
      if Invertible() {
        OverwrittenCarries(k[..], retrievedV[..], old(retrievedK[..]), old(retrievedV[..]), originalPositions, starts,
                           rows);
      }
      return BlendOutput(rows.q, k[..], retrievedV[..], positions, indexesInKv, None);
    }

    method Blend(layer: nat, retrievedK: array<Cell<R>>, retrievedV: array<Cell<R>>, valid: seq<bool>,
                 originalPositions: seq<nat>, rows: Fresh<R>, positions: seq<nat>, starts: seq<nat>, top: set<nat>)
      returns (out: BlendOutput<R>)
      requires retrievedK != retrievedV && retrievedK.Length == retrievedV.Length == |originalPositions| == |valid|
      requires Bounds(starts, |valid|) && |rows.k| == |rows.v| == |rows.q| == |positions|
      requires layer <= 1 ==> |rows.k| == |valid|
      modifies this, retrievedK, retrievedV
      ensures layer != 1 ==> unchanged(this)
      ensures layer == 1 ==> indexesInKv == old(indexesInKv) + Between(Selection(valid, top), 0, |valid|)
      ensures layer <= 1 && out.BlendOutput? ==> out.k == AllDefined(rows.k) && out.v == AllDefined(rows.v)
      ensures layer == 0 ==>
                && out.BlendOutput? && out.q == rows.q && out.positions == positions && out.queryStarts == None
                && |out.indices| == |rows.q| && forall i :: 0 <= i < |rows.q| ==> out.indices[i] == i
      ensures layer == 1 ==> out.BlendOutput? || out.IndexError?
      ensures layer == 1 ==> (out.IndexError? <==> !InRange(indexesInKv, |valid|))
      ensures layer == 1 && out.BlendOutput? ==>
                && out.indices == indexesInKv && |out.q| == |out.positions| == |indexesInKv|
                && (forall i :: 0 <= i < |indexesInKv| ==>
                      out.q[i] == rows.q[indexesInKv[i]]
                      && out.positions[i] == positions[indexesInKv[i]])
                && out.queryStarts.Some? && |out.queryStarts.value| == |starts|
                && forall q :: 0 <= q < |starts| ==>
                     out.queryStarts.value[q] == |Between(Selection(valid, top), 0, starts[q])|
      ensures layer >= 2 ==> (out.AssertionError? <==> |indexesInKv| != |rows.k|)
      ensures layer >= 2 ==>
                (out.IndexError? <==> |indexesInKv| == |rows.k| && !InRange(indexesInKv, |valid|))
      ensures layer >= 2 && out.BlendOutput? ==>
                && |out.k| == |out.v| == |valid| && out.indices == indexesInKv
                && out.q == rows.q && out.positions == positions && out.queryStarts == None
                && Overwritten(out.k, out.v, old(retrievedK[..]), old(retrievedV[..]), originalPositions, starts, rows)
      ensures layer >= 2 && out.BlendOutput? && Invertible() ==>
                KeysCarried(out.k, old(retrievedK[..]), originalPositions, starts)
    {
      if layer == 0 {
        return BlendOutput(rows.q, AllDefined(rows.k), AllDefined(rows.v), positions,
                           seq(|rows.q|, i requires 0 <= i => i), None);
      } else if layer == 1 {
        var newStarts := SelectTokensAllQueries(valid, starts, top);
        if !InRange(indexesInKv, |valid|) {
          return IndexError;
        }
        return BlendOutput(Pick(rows.q, indexesInKv), AllDefined(rows.k), AllDefined(rows.v),
                           Pick(positions, indexesInKv), indexesInKv, Some(newStarts));
      } else {
        out := BlendDeep(retrievedK, retrievedV, originalPositions, rows, positions, starts);
      }
    }
  }

  /** Increasing indexes after any others are all last. */
  lemma LaterWins(stale: seq<nat>, own: seq<nat>, i: nat)
    requires Increasing(own) && |stale| <= i < |stale + own|
    ensures IsLast(stale + own, i)
  {
    forall j | i < j < |stale + own| ensures (stale + own)[j] != (stale + own)[i] {
      assert (stale + own)[j] == own[j - |stale|] && (stale + own)[i] == own[i - |stale|];
    }
  }

  lemma {:induction false} QueryOf(starts: seq<nat>, n: nat, t: nat) returns (q: nat)
    requires 0 < |starts| && starts[0] == 0 && n < |starts| && t < starts[n]
    ensures q < n && starts[q] <= t < starts[q + 1]
    decreases n
  {
    if starts[n - 1] <= t {
      q := n - 1;
    } else {
      q := QueryOf(starts, n - 1, t);
    }
  }

  lemma TokenDefined<R(!new)>(impl: CacheBlendImpl<R>, k: seq<Cell<R>>, v: seq<Cell<R>>, rk: seq<Cell<R>>,
                        rv: seq<Cell<R>>, originalPositions: seq<nat>, starts: seq<nat>, rows: Fresh<R>, t: nat)
    requires |k| == |v| == |rk| == |rv| == |originalPositions| && Bounds(starts, |k|) && t < |k|
    requires |rows.k| == |rows.v| == |impl.indexesInKv|
    requires impl.Overwritten(k, v, rk, rv, originalPositions, starts, rows)
    requires t in impl.indexesInKv || (rk[t].Defined? && rv[t].Defined?)
    ensures k[t].Defined? && v[t].Defined?
  {
    if t in impl.indexesInKv {
      var i := LastOf(impl.indexesInKv, t);
    } else {
      var q := QueryOf(starts, |starts| - 1, t);
      assert impl.Repositioned(rk[t], k[t], originalPositions[t], t - starts[q]);
    }
  }

  /** Whatever was left over from earlier passes, the rows of the tokens this pass selected are the
      fresh ones, and no undefined row survives in a later layer. */
  lemma NothingUndefined<R(!new)>(impl: CacheBlendImpl<R>, k: seq<Cell<R>>, v: seq<Cell<R>>, rk: seq<Cell<R>>,
                            rv: seq<Cell<R>>, valid: seq<bool>, originalPositions: seq<nat>, starts: seq<nat>,
                            rows: Fresh<R>, top: set<nat>, stale: seq<nat>)
    requires |k| == |v| == |rk| == |rv| == |originalPositions| == |valid| && Bounds(starts, |k|)
    requires |rows.k| == |rows.v| == |impl.indexesInKv|
    requires impl.indexesInKv == stale + Between(Selection(valid, top), 0, |valid|)
    requires impl.Overwritten(k, v, rk, rv, originalPositions, starts, rows)
    requires forall t :: 0 <= t < |valid| && valid[t] ==> rk[t].Defined? && rv[t].Defined?
    ensures forall t :: 0 <= t < |valid| ==> k[t].Defined? && v[t].Defined?
    ensures forall i :: |stale| <= i < |impl.indexesInKv| ==>
              k[impl.indexesInKv[i]] == Defined(rows.k[i]) && v[impl.indexesInKv[i]] == Defined(rows.v[i])
  {
    var own := Between(Selection(valid, top), 0, |valid|);
    BetweenMeaning(Selection(valid, top), 0, |valid|);
    forall t | 0 <= t < |valid| ensures k[t].Defined? && v[t].Defined? {
      assert !valid[t] ==> t in own;
      TokenDefined(impl, k, v, rk, rv, originalPositions, starts, rows, t);
    }
    forall i | |stale| <= i < |impl.indexesInKv|
      ensures k[impl.indexesInKv[i]] == Defined(rows.k[i]) && v[impl.indexesInKv[i]] == Defined(rows.v[i])
    {
      LaterWins(stale, own, i);
    }
  }

  // ---- A whole forward pass --------------------------------------------------------------------

  lemma RetrievedDefined<R>(r: Rebuilt<R>, lengths: seq<nat>, answers: seq<Answer<R>>, layers: nat, l: nat)
    requires |answers| == |lengths| && Faithful(r, lengths, answers, layers) && r.k.Some? && l < layers
    requires forall i :: 0 <= i < |lengths| ==> Fits(answers[i], lengths[i], layers)
    ensures forall t :: 0 <= t < |r.valid| && r.valid[t] ==> r.k.value[l][t].Defined? && r.v.value[l][t].Defined?
  {
    forall t | 0 <= t < |r.valid| && r.valid[t] ensures r.k.value[l][t].Defined? && r.v.value[l][t].Defined? {
      var i, j := Locate(lengths, |lengths|, t);
      assert TokenRebuilt(r, lengths, answers, layers, i, j);
      assert RowRebuilt(r.k.value[l], answers[i].k, l, t, j, true);
      assert RowRebuilt(r.v.value[l], answers[i].v, l, t, j, true);
    }
  }

  ghost predicate Complete<R>(out: BlendOutput<R>, total: nat) {
    && out.BlendOutput? && |out.k| == |out.v| == total
    && forall t :: 0 <= t < total ==> out.k[t].Defined? && out.v[t].Defined?
  }

  /** Token `j` of segment `i`, in query `q`, kept its retrieved rows, with the key moved from its
      position in the segment to its position in the query. */
  ghost predicate Reused<R(!new)>(impl: CacheBlendImpl<R>, out: BlendOutput<R>, answer: Answer<R>, l: nat, t: nat,
                            j: nat, position: nat)
  {
    && out.BlendOutput? && t < |out.k| == |out.v|
    && l < |answer.k| == |answer.v| && j < |answer.k[l]| == |answer.v[l]|
    && impl.Repositioned(Defined(answer.k[l][j]), out.k[t], j, position)
    && (impl.Invertible() ==> impl.Carried(Defined(answer.k[l][j]), out.k[t], j, position))
    && out.v[t] == Defined(answer.v[l][j])
  }

  /** What one layer of the pass delivers. */
  ghost predicate LayerBlended<R(!new)>(impl: CacheBlendImpl<R>, out: BlendOutput<R>, lengths: seq<nat>,
                                  answers: seq<Answer<R>>, starts: seq<nat>, selected: seq<nat>, l: nat)
    requires |answers| == |lengths|
  {
    && Complete(out, Start(lengths, |lengths|))
    && (l >= 2 ==>
          && out.indices == selected
          && forall i: nat, j: nat, q: nat :: i < |lengths| && j < lengths[i] && q + 1 < |starts| ==>
               TokenReused(impl, out, lengths, answers[i], starts, selected, l, i, j, q))
  }

  ghost predicate TokenReused<R(!new)>(impl: CacheBlendImpl<R>, out: BlendOutput<R>, lengths: seq<nat>,
                                       answer: Answer<R>, starts: seq<nat>, selected: seq<nat>, l: nat, i: nat,
                                       j: nat, q: nat)
    requires i < |lengths| && j < lengths[i] && q + 1 < |starts|
  {
    var t := Start(lengths, i) + j;
    t !in selected && starts[q] <= t < starts[q + 1] ==> Reused(impl, out, answer, l, t, j, t - starts[q])
  }

  lemma DeepLayer<R(!new)>(impl: CacheBlendImpl<R>, out: BlendOutput<R>, r: Rebuilt<R>, lengths: seq<nat>,
                     answers: seq<Answer<R>>, layers: nat, starts: seq<nat>, rows: Fresh<R>, top: set<nat>, l: nat)
    requires |answers| == |lengths| && Faithful(r, lengths, answers, layers) && r.k.Some? && 2 <= l < layers
    requires forall i :: 0 <= i < |lengths| ==> Fits(answers[i], lengths[i], layers)
    requires Bounds(starts, |r.valid|) && |rows.k| == |rows.v| == |impl.indexesInKv|
    requires impl.indexesInKv == Between(Selection(r.valid, top), 0, |r.valid|)
    requires out.BlendOutput? && |out.k| == |out.v| == |r.valid| && out.indices == impl.indexesInKv
    requires impl.Overwritten(out.k, out.v, r.k.value[l], r.v.value[l], r.positions, starts, rows)
    ensures LayerBlended(impl, out, lengths, answers, starts, impl.indexesInKv, l)
  {
    RetrievedDefined(r, lengths, answers, layers, l);
    NothingUndefined(impl, out.k, out.v, r.k.value[l], r.v.value[l], r.valid, r.positions, starts, rows, top, []);
    BetweenMeaning(Selection(r.valid, top), 0, |r.valid|);
    forall i: nat, j: nat, q: nat | i < |lengths| && j < lengths[i] && q + 1 < |starts|
      ensures TokenReused(impl, out, lengths, answers[i], starts, impl.indexesInKv, l, i, j, q)
    {
      var t := Start(lengths, i) + j;
      if t !in impl.indexesInKv && starts[q] <= t < starts[q + 1] {
        KeptRow(impl, out, r, lengths, answers, layers, starts, rows, l, i, j, q);
      }
    }
  }

  lemma KeptRow<R(!new)>(impl: CacheBlendImpl<R>, out: BlendOutput<R>, r: Rebuilt<R>, lengths: seq<nat>,
                   answers: seq<Answer<R>>, layers: nat, starts: seq<nat>, rows: Fresh<R>, l: nat,
                   i: nat, j: nat, q: nat)
    requires |answers| == |lengths| && Faithful(r, lengths, answers, layers) && r.k.Some? && l < layers
    requires i < |lengths| && j < lengths[i] && q + 1 < |starts| && Fits(answers[i], lengths[i], layers)
    requires Bounds(starts, |r.valid|) && |rows.k| == |rows.v| == |impl.indexesInKv|
    requires out.BlendOutput? && |out.k| == |out.v| == |r.valid|
    requires impl.Overwritten(out.k, out.v, r.k.value[l], r.v.value[l], r.positions, starts, rows)
    requires var t := Start(lengths, i) + j;
             t !in impl.indexesInKv && starts[q] <= t < starts[q + 1]
             && (t < |r.valid| && !r.valid[t] ==> t in impl.indexesInKv)
    ensures Reused(impl, out, answers[i], l, Start(lengths, i) + j, j, Start(lengths, i) + j - starts[q])
  {
    var t := Start(lengths, i) + j;
    assert TokenRebuilt(r, lengths, answers, layers, i, j);
    assert RowRebuilt(r.k.value[l], answers[i].k, l, t, j, true);
    assert RowRebuilt(r.v.value[l], answers[i].v, l, t, j, true);
    assert impl.Repositioned(r.k.value[l][t], out.k[t], r.positions[t], t - starts[q]);
    if impl.Invertible() {
      impl.RepositionCarries(Defined(answers[i].k[l][j]), out.k[t], j, t - starts[q]);
    }
  }

  /** Positions of the rows a layer computes. */
  function PositionsAt(positions: seq<nat>, indexes: seq<nat>, l: nat): (at: seq<nat>)
    requires InRange(indexes, |positions|)
    ensures |at| == if l <= 1 then |positions| else |indexes|
  {
    if l <= 1 then positions else Pick(positions, indexes)
  }

  lemma ShallowLayer<R(!new)>(impl: CacheBlendImpl<R>, out: BlendOutput<R>, lengths: seq<nat>, answers: seq<Answer<R>>,
                        starts: seq<nat>, selected: seq<nat>, rows: Fresh<R>, l: nat)
    requires |answers| == |lengths| && l <= 1 && |rows.k| == |rows.v| == Start(lengths, |lengths|)
    requires out.BlendOutput? && out.k == AllDefined(rows.k) && out.v == AllDefined(rows.v)
    ensures LayerBlended(impl, out, lengths, answers, starts, selected, l)
  {
  }

  lemma LayerSizes<R>(task: SPTBlendRetrieverTask<R>, l: nat)
    requires task.Valid() && task.rebuilt.Some? && task.rebuilt.value.k.Some? && l < task.layers
    ensures var r := task.rebuilt.value;
            && r.v.Some? && l < |r.k.value| && l < |r.v.value|
            && |r.k.value[l]| == |r.v.value[l]| == |r.positions| == |r.valid| == Start(task.lengths, |task.lengths|)
  {
  }

  lemma SelectedInRange(valid: seq<bool>, top: set<nat>)
    ensures InRange(Between(Selection(valid, top), 0, |valid|), |valid|)
  {
    BetweenMeaning(Selection(valid, top), 0, |valid|);
  }

  method CallBlend<R(!new)>(impl: CacheBlendImpl<R>, rk: seq<Cell<R>>, rv: seq<Cell<R>>, valid: seq<bool>,
                      originalPositions: seq<nat>, rows: Fresh<R>, positions: seq<nat>, starts: seq<nat>,
                      top: set<nat>, l: nat)
    returns (out: BlendOutput<R>)
    requires |rk| == |rv| == |originalPositions| == |valid| && Bounds(starts, |valid|)
    requires |rows.k| == |rows.v| == |rows.q| == |positions| == if l <= 1 then |valid| else |impl.indexesInKv|
    requires impl.indexesInKv == if l <= 1 then [] else Between(Selection(valid, top), 0, |valid|)
    modifies impl
    ensures impl.indexesInKv == if l == 0 then [] else Between(Selection(valid, top), 0, |valid|)
    ensures out.BlendOutput?
    ensures l <= 1 ==> out.k == AllDefined(rows.k) && out.v == AllDefined(rows.v)
    ensures l >= 2 ==>
              && |out.k| == |out.v| == |valid| && out.indices == impl.indexesInKv
              && impl.Overwritten(out.k, out.v, rk, rv, originalPositions, starts, rows)
  {
    SelectedInRange(valid, top);
    var k := new Cell<R>[|rk|](i requires 0 <= i < |rk| => rk[i]);
    var v := new Cell<R>[|rv|](i requires 0 <= i < |rv| => rv[i]);
    assert k[..] == rk && v[..] == rv;
    out := impl.Blend(l, k, v, valid, originalPositions, rows, positions, starts, top);
  }

  method BlendLayer<R(!new)>(task: SPTBlendRetrieverTask<R>, impl: CacheBlendImpl<R>, starts: seq<nat>, top: set<nat>,
                       positions: seq<nat>, compute: (nat, nat) -> Fresh<R>, l: nat, ghost selected: seq<nat>)
    returns (out: BlendOutput<R>)
    requires task.Valid() && task.rebuilt.Some? && task.rebuilt.value.k.Some? && l < task.layers
    requires Bounds(starts, |task.rebuilt.value.valid|) && |positions| == |task.rebuilt.value.valid|
    requires forall l, n :: |compute(l, n).q| == |compute(l, n).k| == |compute(l, n).v| == n
    requires selected == Between(Selection(task.rebuilt.value.valid, top), 0, |task.rebuilt.value.valid|)
    requires impl.indexesInKv == if l <= 1 then [] else selected
    modifies impl
    ensures impl.indexesInKv == if l == 0 then [] else selected
    ensures LayerBlended(impl, out, task.lengths, task.answers, starts, selected, l)
  {
    var r := task.rebuilt.value;
    LayerSizes(task, l);
    BetweenMeaning(Selection(r.valid, top), 0, |r.valid|);
    var rows := compute(l, if l <= 1 then |r.valid| else |impl.indexesInKv|);
    out := CallBlend(impl, r.k.value[l], r.v.value[l], r.valid, r.positions, rows,
                     PositionsAt(positions, impl.indexesInKv, l), starts, top, l);
    if l >= 2 {
      DeepLayer(impl, out, r, task.lengths, task.answers, task.layers, starts, rows, top, l);
    } else {
      ShallowLayer(impl, out, task.lengths, task.answers, starts, selected, rows, l);
    }
  }

  /** Every layer of a pass over retrieved segments yields complete K and V: what was not retrieved is
      recomputed, and what is reused sits at its position in the query. */
  method BlendPass<R(!new)>(task: SPTBlendRetrieverTask<R>, impl: CacheBlendImpl<R>, starts: seq<nat>, top: set<nat>,
                      positions: seq<nat>, compute: (nat, nat) -> Fresh<R>) returns (outputs: seq<BlendOutput<R>>)
    requires task.Valid() && task.rebuilt.Some? && task.rebuilt.value.k.Some? && impl.indexesInKv == []
    requires Bounds(starts, |task.rebuilt.value.valid|) && |positions| == |task.rebuilt.value.valid|
    requires forall l, n :: |compute(l, n).q| == |compute(l, n).k| == |compute(l, n).v| == n
    modifies impl
    ensures |outputs| == task.layers
    ensures forall l :: 0 <= l < task.layers ==>
              LayerBlended(impl, outputs[l], task.lengths, task.answers, starts,
                           Between(Selection(task.rebuilt.value.valid, top), 0, |task.rebuilt.value.valid|), l)
  {
    outputs := [];
    ghost var r := task.rebuilt.value;
    ghost var selected := Between(Selection(r.valid, top), 0, |r.valid|);
    for l := 0 to task.layers
      invariant |outputs| == l && impl.indexesInKv == if l <= 1 then [] else selected
      invariant forall m :: 0 <= m < l ==>
                  LayerBlended(impl, outputs[m], task.lengths, task.answers, starts, selected, m)
    {
      var out := BlendLayer(task, impl, starts, top, positions, compute, l, selected);
      outputs := outputs + [out];
    }
  }

  // ---- A second pass through the same executor -------------------------------------------------

  /** What one batch brings to an executor: the retrieved rows of one layer and the query bounds. */
  datatype Prompt<R> = Prompt(rk: seq<Cell<R>>, rv: seq<Cell<R>>, valid: seq<bool>, originalPositions: seq<nat>,
                              starts: seq<nat>, top: set<nat>)
  {
    ghost predicate Valid() {
      && |rk| == |rv| == |originalPositions| == |valid| && Bounds(starts, |valid|)
      && forall t :: 0 <= t < |valid| && valid[t] ==> rk[t].Defined? && rv[t].Defined?
    }

    ghost function Chosen(): seq<nat> {
      Between(Selection(valid, top), 0, |valid|)
    }
  }

  ghost predicate Sized<R>(rows: Fresh<R>, n: nat) {
    |rows.q| == |rows.k| == |rows.v| == n
  }

  /** What layer 1 hands on when `stale` indexes are left from earlier passes. */
  ghost predicate HandedOn<R>(out: BlendOutput<R>, stale: seq<nat>, p: Prompt<R>, rows: Fresh<R>, positions: seq<nat>)
    requires p.Valid() && Sized(rows, |p.valid|) && |positions| == |p.valid| && InRange(stale, |p.valid|)
  {
    && out.BlendOutput? && out.indices == stale + p.Chosen() && InRange(out.indices, |p.valid|)
    && out.q == Pick(rows.q, out.indices) && out.positions == Pick(positions, out.indices)
    && out.queryStarts.Some? && |out.queryStarts.value| == |p.starts|
    && out.queryStarts.value[|p.starts| - 1] == |p.Chosen()|
    && (out.queryStarts.value[|p.starts| - 1] == |out.q| <==> stale == [])
  }

  /** The selected tokens hold the rows computed for them, after those of the stale indexes. */
  ghost predicate RowsAt<R>(out: BlendOutput<R>, chosen: seq<nat>, rows: Fresh<R>, skip: nat) {
    && out.BlendOutput? && |out.k| == |out.v| && |rows.k| == |rows.v| == skip + |chosen| && InRange(chosen, |out.k|)
    && forall i :: 0 <= i < |chosen| ==>
         out.k[chosen[i]] == Defined(rows.k[skip + i]) && out.v[chosen[i]] == Defined(rows.v[skip + i])
  }

  lemma ChosenInRange<R>(p: Prompt<R>, stale: seq<nat>)
    requires p.Valid()
    ensures InRange(p.Chosen(), |p.valid|)
    ensures InRange(stale + p.Chosen(), |p.valid|) <==> InRange(stale, |p.valid|)
  {
    BetweenMeaning(Selection(p.valid, p.top), 0, |p.valid|);
    if InRange(stale + p.Chosen(), |p.valid|) {
      forall i | 0 <= i < |stale| ensures stale[i] < |p.valid| {
        assert (stale + p.Chosen())[i] < |p.valid|;
      }
    }
  }

  method LayerOne<R(!new)>(impl: CacheBlendImpl<R>, p: Prompt<R>, rows: Fresh<R>, positions: seq<nat>)
    returns (out: BlendOutput<R>)
    requires p.Valid() && Sized(rows, |p.valid|) && |positions| == |p.valid|
    modifies impl
    ensures impl.indexesInKv == old(impl.indexesInKv) + p.Chosen()
    ensures if InRange(old(impl.indexesInKv), |p.valid|)
            then HandedOn(out, old(impl.indexesInKv), p, rows, positions) else out.IndexError?
  {
    ghost var stale := impl.indexesInKv;
    ChosenInRange(p, stale);
    var k := new Cell<R>[|p.rk|](i requires 0 <= i < |p.rk| => p.rk[i]);
    var v := new Cell<R>[|p.rv|](i requires 0 <= i < |p.rv| => p.rv[i]);
    assert k[..] == p.rk && v[..] == p.rv;
    out := impl.Blend(1, k, v, p.valid, p.originalPositions, rows, positions, p.starts, p.top);
    if out.BlendOutput? {
      assert out.q == Pick(rows.q, out.indices);
      assert out.positions == Pick(positions, out.indices);
    }
  }

  method DeepLayerOn<R(!new)>(impl: CacheBlendImpl<R>, p: Prompt<R>, layer: nat, rows: Fresh<R>, positions: seq<nat>,
                        ghost stale: seq<nat>)
    returns (out: BlendOutput<R>)
    requires p.Valid() && layer >= 2 && impl.indexesInKv == stale + p.Chosen() && InRange(stale, |p.valid|)
    requires Sized(rows, |impl.indexesInKv|) && |positions| == |impl.indexesInKv|
    modifies impl
    ensures impl.indexesInKv == old(impl.indexesInKv)
    ensures Complete(out, |p.valid|) && out.indices == impl.indexesInKv && RowsAt(out, p.Chosen(), rows, |stale|)
    ensures impl.Overwritten(out.k, out.v, p.rk, p.rv, p.originalPositions, p.starts, rows)
    ensures impl.Invertible() ==> impl.KeysCarried(out.k, p.rk, p.originalPositions, p.starts)
  {
    ChosenInRange(p, stale);
    var k := new Cell<R>[|p.rk|](i requires 0 <= i < |p.rk| => p.rk[i]);
    var v := new Cell<R>[|p.rv|](i requires 0 <= i < |p.rv| => p.rv[i]);
    assert k[..] == p.rk && v[..] == p.rv;
    out := impl.Blend(layer, k, v, p.valid, p.originalPositions, rows, positions, p.starts, p.top);
    NothingUndefined(impl, out.k, out.v, p.rk, p.rv, p.valid, p.originalPositions, p.starts, rows, p.top, stale);
    forall i | 0 <= i < |p.Chosen()|
      ensures out.k[p.Chosen()[i]] == Defined(rows.k[|stale| + i])
      ensures out.v[p.Chosen()[i]] == Defined(rows.v[|stale| + i])
    {
      assert impl.indexesInKv[|stale| + i] == p.Chosen()[i];
    }
  }

  /** The executor never clears its indexes, so a second pass hands on the rows of the first selection
      as well. It fails exactly if one of those lies outside the second batch; otherwise the start
      locations agree with the rows handed on exactly if the first pass selected nothing. The deeper
      layers still get complete K and V, with the fresh rows of the second selection in place. */
  method SecondPass<R(!new)>(impl: CacheBlendImpl<R>, first: Prompt<R>, second: Prompt<R>, rows1: Fresh<R>,
                             rows2: Fresh<R>, positions1: seq<nat>, positions2: seq<nat>, layer: nat,
                             compute: nat -> Fresh<R>)
    returns (handed: BlendOutput<R>, deep: BlendOutput<R>)
    requires impl.indexesInKv == [] && first.Valid() && second.Valid() && layer >= 2
    requires Sized(rows1, |first.valid|) && Sized(rows2, |second.valid|)
    requires |positions1| == |first.valid| && |positions2| == |second.valid|
    requires forall n :: Sized(compute(n), n)
    modifies impl
    ensures impl.indexesInKv == first.Chosen() + second.Chosen()
    ensures !InRange(first.Chosen(), |second.valid|) ==> handed.IndexError?
    ensures InRange(first.Chosen(), |second.valid|) ==>
              && HandedOn(handed, first.Chosen(), second, rows2, positions2)
              && Complete(deep, |second.valid|) && deep.indices == impl.indexesInKv
              && RowsAt(deep, second.Chosen(), compute(|handed.q|), |first.Chosen()|)
              && impl.Overwritten(deep.k, deep.v, second.rk, second.rv, second.originalPositions, second.starts,
                                  compute(|impl.indexesInKv|))
              && (impl.Invertible() ==>
                    impl.KeysCarried(deep.k, second.rk, second.originalPositions, second.starts))
  {
    var _ := LayerOne(impl, first, rows1, positions1);
    assert impl.indexesInKv == first.Chosen();
    handed := LayerOne(impl, second, rows2, positions2);
    deep := handed;
    if handed.BlendOutput? {
      deep := DeepLayerOn(impl, second, layer, compute(|handed.q|), handed.positions, first.Chosen());
    }
  }
}
