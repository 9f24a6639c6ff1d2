/** Layer-by-layer loading into paged memory: `batched_to_gpu` as a resumable object over two
    ping-pong buffers, and `retrieve_layer` driving it. */
module LayerwiseLoad {

  /** The chunks of a request as token ranges. */
  datatype Spans = Spans(starts: seq<nat>, ends: seq<nat>)
  {
    /** Ascending, non-overlapping ranges; at least one. */
    ghost predicate Valid() {
      && |starts| == |ends| > 0
      && (forall c :: 0 <= c < |starts| ==> starts[c] <= ends[c])
      && (forall c, d :: 0 <= c < d < |starts| ==> ends[c] <= starts[d])
    }

    function First(): nat
      requires |starts| > 0
    {
      starts[0]
    }

    function Last(): nat
      requires |ends| > 0
    {
      ends[|ends| - 1]
    }

    /** How many tokens lie between the first start and the last end. */
    function Width(): nat
      requires Valid()
    {
      assert starts[0] <= ends[0];
      assert |starts| > 1 ==> ends[0] <= starts[|starts| - 1];
      Last() - First()
    }

    predicate Covers(c: nat, p: int) {
      c < |starts| && c < |ends| && starts[c] <= p < ends[c]
    }

    /** The chunk that covers a token position, or the number of chunks. */
    function ChunkAt(p: int): (c: nat)
      requires |starts| == |ends|
      ensures c <= |starts|
      ensures c < |starts| ==> Covers(c, p)
      ensures c == |starts| ==> forall d :: 0 <= d < |starts| ==> !Covers(d, p)
    {
      FindChunk(p, 0)
    }

    function FindChunk(p: int, from: nat): (c: nat)
      requires |starts| == |ends| && from <= |starts|
      ensures from <= c <= |starts|
      ensures c < |starts| ==> Covers(c, p)
      ensures c == |starts| ==> forall d :: from <= d < |starts| ==> !Covers(d, p)
      decreases |starts| - from
    {
      if from == |starts| || Covers(from, p) then from else FindChunk(p, from + 1)
    }
  }

  /** A position is covered by at most one chunk. */
  lemma ChunkUnique(sp: Spans, c: nat, p: int)
    requires sp.Valid() && sp.Covers(c, p)
    ensures sp.ChunkAt(p) == c
  {
    var d := sp.ChunkAt(p);
    assert sp.Covers(d, p);
  }

  /** One layer of all cached chunks: per chunk its key rows, its value rows and the positions
      the keys carry. */
  datatype Layer<R> = Layer(k: seq<seq<R>>, v: seq<seq<R>>, oldPositions: seq<seq<int>>)

  /** One layer of the paged cache, by slot. */
  datatype Page<R> = Page(k: map<int, R>, v: map<int, R>)

  /** Every chunk has as many rows as its range. */
  ghost predicate ChunksFit<T>(sp: Spans, chunks: seq<seq<T>>)
    requires sp.Valid()
  {
    |chunks| == |sp.starts| && forall c :: 0 <= c < |chunks| ==> |chunks[c]| == sp.ends[c] - sp.starts[c]
  }

  ghost predicate Fits<R>(sp: Spans, objs: Layer<R>)
    requires sp.Valid()
  {
    ChunksFit(sp, objs.k) && ChunksFit(sp, objs.v) && ChunksFit(sp, objs.oldPositions)
  }

  // ---- What one layer should look like -----------------------------------------------------------

  /** The key rows of a loaded layer: re-rotated to their new positions, zero in the gaps. */
  ghost function KeyRows<R>(sp: Spans, rope: (int, int, R) -> R, zero: R,
                            first: Layer<R>, objs: Layer<R>): (rows: seq<R>)
    requires sp.Valid() && Fits(sp, first) && Fits(sp, objs)
    ensures |rows| == sp.Width()
  {
    seq(sp.Width(), j requires 0 <= j < sp.Width() => KeyRow(sp, rope, zero, first, objs, sp.First() + j))
  }

  ghost function KeyRow<R>(sp: Spans, rope: (int, int, R) -> R, zero: R,
                           first: Layer<R>, objs: Layer<R>, p: int): R
    requires sp.Valid() && Fits(sp, first) && Fits(sp, objs)
  {
    var c := sp.ChunkAt(p);
    if c == |sp.starts| then zero
    else rope(first.oldPositions[c][p - sp.starts[c]], p, objs.k[c][p - sp.starts[c]])
  }

  ghost function ValueRows<R>(sp: Spans, zero: R, objs: Layer<R>): (rows: seq<R>)
    requires sp.Valid() && Fits(sp, objs)
    ensures |rows| == sp.Width()
  {
    seq(sp.Width(), j requires 0 <= j < sp.Width() => ValueRow(sp, zero, objs, sp.First() + j))
  }

  ghost function ValueRow<R>(sp: Spans, zero: R, objs: Layer<R>, p: int): R
    requires sp.Valid() && Fits(sp, objs)
  {
    var c := sp.ChunkAt(p);
    if c == |sp.starts| then zero else objs.v[c][p - sp.starts[c]]
  }

  /** `single_layer_kv_transfer` towards the paged cache: row by row to its slot. */
  function Scatter<R>(mem: map<int, R>, slots: seq<int>, rows: seq<R>): map<int, R>
    requires |slots| == |rows|
  {
    if slots == [] then mem
    else Scatter(mem, slots[..|slots| - 1], rows[..|rows| - 1])[slots[|slots| - 1] := rows[|rows| - 1]]
  }

  /** With distinct slots every row arrives and no other slot changes. */
  lemma {:induction false} ScatterMeaning<R>(mem: map<int, R>, slots: seq<int>, rows: seq<R>)
    requires |slots| == |rows|
    requires forall i, j :: 0 <= i < j < |slots| ==> slots[i] != slots[j]
    ensures var out := Scatter(mem, slots, rows);
            && (forall j :: 0 <= j < |slots| ==> slots[j] in out && out[slots[j]] == rows[j])
            && (forall x :: x !in slots ==> (x in out <==> x in mem) && (x in mem ==> out[x] == mem[x]))
  {
    if slots == [] {
    } else {
      var n := |slots| - 1;
      ScatterMeaning(mem, slots[..n], rows[..n]);
      assert slots == slots[..n] + [slots[n]];
    }
  }

  /** One page after a layer has been flushed to it. */
  ghost function FlushedPage<R>(sp: Spans, slots: seq<int>, rope: (int, int, R) -> R, zero: R, page: Page<R>,
                                first: Layer<R>, objs: Layer<R>): Page<R>
    requires sp.Valid() && Fits(sp, first) && Fits(sp, objs) && |slots| == sp.Width()
  {
    Page(Scatter(page.k, slots, KeyRows(sp, rope, zero, first, objs)),
         Scatter(page.v, slots, ValueRows(sp, zero, objs)))
  }

  // ---- Loading chunk by chunk --------------------------------------------------------------------

  /** The first `n` chunks have been copied into the rows. */
  ghost predicate Filled<T>(sp: Spans, chunks: seq<seq<T>>, n: nat, rows: seq<T>)
    requires sp.Valid() && ChunksFit(sp, chunks) && |rows| == sp.Width() && n <= |sp.starts|
  {
    forall j :: 0 <= j < |rows| && sp.ChunkAt(sp.First() + j) < n ==>
      var c := sp.ChunkAt(sp.First() + j);
      rows[j] == chunks[c][sp.First() + j - sp.starts[c]]
  }

  /** Overwriting the rows of one chunk. */
  function Overwrite<T>(sp: Spans, c: nat, rows: seq<T>, chunk: seq<T>): (out: seq<T>)
    requires sp.Valid() && c < |sp.starts| && |rows| == sp.Width() && |chunk| == sp.ends[c] - sp.starts[c]
    ensures |out| == |rows|
    ensures forall j :: 0 <= j < |rows| ==>
              out[j] == if sp.Covers(c, sp.First() + j) then chunk[sp.First() + j - sp.starts[c]] else rows[j]
  {
    SpanInside(sp, c);
    rows[..sp.starts[c] - sp.First()] + chunk + rows[sp.ends[c] - sp.First()..]
  }

  lemma FillOneMore<T>(sp: Spans, chunks: seq<seq<T>>, c: nat, rows: seq<T>)
    requires sp.Valid() && ChunksFit(sp, chunks) && c < |sp.starts| && |rows| == sp.Width()
    requires Filled(sp, chunks, c, rows)
    ensures Filled(sp, chunks, c + 1, Overwrite(sp, c, rows, chunks[c]))
  {
    var out := Overwrite(sp, c, rows, chunks[c]);
    forall j | 0 <= j < |out| && sp.ChunkAt(sp.First() + j) < c + 1
      ensures var d := sp.ChunkAt(sp.First() + j); out[j] == chunks[d][sp.First() + j - sp.starts[d]]
    {
      if sp.Covers(c, sp.First() + j) {
        ChunkUnique(sp, c, sp.First() + j);
      }
    }
  }

  /** Rotating loaded rows and zeroing the gaps gives the specified layer. */
  lemma RotatedRows<R>(sp: Spans, rope: (int, int, R) -> R, zero: R, first: Layer<R>, objs: Layer<R>,
                       k: seq<R>, v: seq<R>, positions: seq<int>, gaps: seq<bool>, k': seq<R>, v': seq<R>)
    requires sp.Valid() && Fits(sp, first) && Fits(sp, objs)
    requires |k| == |v| == |positions| == |gaps| == |k'| == |v'| == sp.Width()
    requires Filled(sp, objs.k, |sp.starts|, k) && Filled(sp, objs.v, |sp.starts|, v)
    requires Filled(sp, first.oldPositions, |sp.starts|, positions)
    requires IsGapMask(sp, gaps)
    requires forall j :: 0 <= j < |k'| ==> k'[j] == if gaps[j] then zero else rope(positions[j], sp.First() + j, k[j])
    requires forall j :: 0 <= j < |v'| ==> v'[j] == if gaps[j] then zero else v[j]
    ensures k' == KeyRows(sp, rope, zero, first, objs) && v' == ValueRows(sp, zero, objs)
  {
    forall j | 0 <= j < sp.Width()
      ensures k'[j] == KeyRow(sp, rope, zero, first, objs, sp.First() + j)
      ensures v'[j] == ValueRow(sp, zero, objs, sp.First() + j)
    {
      var c := sp.ChunkAt(sp.First() + j);
      assert gaps[j] <==> c == |sp.starts|;
    }
  }

  ghost predicate IsGapMask(sp: Spans, gaps: seq<bool>)
    requires sp.Valid()
  {
    && |gaps| == sp.Width()
    && forall j :: 0 <= j < |gaps| ==> (gaps[j] <==> sp.ChunkAt(sp.First() + j) == |sp.starts|)
  }

  ghost predicate NoneBefore(sp: Spans, c: nat, p: int) {
    forall d :: 0 <= d < c ==> !sp.Covers(d, p)
  }

  lemma SpanInside(sp: Spans, c: nat)
    requires sp.Valid() && c < |sp.starts|
    ensures sp.First() <= sp.starts[c] && sp.ends[c] <= sp.Last()
  {
    assert sp.starts[0] <= sp.ends[0];
    assert sp.starts[|sp.starts| - 1] <= sp.ends[|sp.starts| - 1];
  }

  /** The gap mask: all true, then false over every chunk. */
  method ComputeGaps(sp: Spans) returns (mask: seq<bool>)
    requires sp.Valid()
    ensures IsGapMask(sp, mask)
  {
    mask := seq(sp.Width(), j => true);
    for c := 0 to |sp.starts|
      invariant |mask| == sp.Width()
      invariant forall j :: 0 <= j < |mask| ==> (mask[j] <==> NoneBefore(sp, c, sp.First() + j))
    {
      mask := Overwrite(sp, c, mask, seq(sp.ends[c] - sp.starts[c], j => false));
    }
    forall j | 0 <= j < |mask| ensures mask[j] <==> sp.ChunkAt(sp.First() + j) == |sp.starts| {
      assert mask[j] <==> NoneBefore(sp, |sp.starts|, sp.First() + j);
    }
  }

  // ---- The generator -----------------------------------------------------------------------------

  /** A GPU staging buffer. `landing` while a copy on the load stream may still write it,
      `flushing` while a kernel on the compute stream may still read it. */
  class GpuBuffer<R> {
    var k: seq<R>
    var v: seq<R>
    var landing: bool
    var flushing: bool

    constructor (k: seq<R>, v: seq<R>)
      ensures this.k == k && this.v == v && !landing && !flushing
    {
      this.k, this.v, landing, flushing := k, v, false, false;
    }
  }

  /** Where the generator is paused. */
  datatype Pause = AwaitLayer(layer: nat) | Drain | Done

  class LayerLoader<R> {
    const numLayers: nat
    const spans: Spans
    const slots: seq<int>
    const rope: (int, int, R) -> R
    const zero: R

    var pause: Pause
    var yielded: nat
    var compute: GpuBuffer<R>
    var load: GpuBuffer<R>
    var bufferMapping: map<nat, GpuBuffer<R>>
    var gaps: seq<bool>
    var oldPositions: seq<int>
    var pages: seq<Page<R>>

    ghost var sent: seq<Layer<R>>
    ghost const initialPages: seq<Page<R>>
    ghost const Repr: set<object>

    /** What holds of the fixed parts. */
    ghost predicate Shape()
      reads this`compute, this`load, this`gaps, this`oldPositions, this`pages, this`sent, compute, load
    {
      && Repr == {this, compute, load} && compute != load
      && spans.Valid() && numLayers >= 1 && |slots| == spans.Width()
      && |compute.k| == |compute.v| == |load.k| == |load.v| == spans.Width()
      && IsGapMask(spans, gaps) && |oldPositions| == spans.Width()
      && |pages| == |initialPages| == numLayers
      && (forall i :: 0 <= i < |sent| ==> Fits(spans, sent[i]))
      && (sent != [] ==> Filled(spans, sent[0].oldPositions, |spans.starts|, oldPositions))
    }

    /** The flushed layers are right and the others untouched. */
    ghost predicate PagesAt(flushed: nat)
      reads this`pages, this`sent
      requires spans.Valid() && |slots| == spans.Width() && (forall i :: 0 <= i < |sent| ==> Fits(spans, sent[i]))
      requires |pages| == |initialPages| == numLayers && flushed <= |sent| <= numLayers
    {
      && (forall l :: 0 <= l < flushed ==>
            pages[l] == FlushedPage(spans, slots, rope, zero, initialPages[l], sent[0], sent[l]))
      && (forall l :: flushed <= l < numLayers ==> pages[l] == initialPages[l])
    }

    ghost predicate NothingInFlight()
      reads this`compute, this`load, compute, load
    {
      !compute.landing && !load.landing && !compute.flushing && !load.flushing
    }

    ghost predicate Settled(flushed: nat)
      reads this`compute, this`load, this`gaps, this`oldPositions, this`pages, this`sent, compute, load
      requires Shape() && flushed <= |sent| <= numLayers
    {
      NothingInFlight() && PagesAt(flushed)
    }

    /** The compute buffer holds the finished rows of the layer sent last. */
    ghost predicate Staged()
      reads this`compute, this`load, this`gaps, this`oldPositions, this`pages, this`sent, compute, load
      requires Shape() && sent != []
    {
      && compute.k == KeyRows(spans, rope, zero, sent[0], sent[|sent| - 1])
      && compute.v == ValueRows(spans, zero, sent[|sent| - 1])
    }

    /** Paused between two layers: only the layer sent last is buffered, finished and not flushed. */
    ghost predicate Paused()
      reads this, compute, load
      requires Shape() && |sent| <= numLayers
    {
      && yielded == |sent| + 1
      && if sent == [] then bufferMapping == map[] && Settled(0)
         else bufferMapping == map[|sent| - 1 := compute] && Settled(|sent| - 1) && Staged()
    }

    ghost predicate Valid()
      reads this, compute, load
    {
      && Shape() && |sent| <= numLayers
      && match pause
         case AwaitLayer(i) => i == |sent| < numLayers && Paused()
         case Drain => |sent| == numLayers && Paused()
         case Done => |sent| == numLayers && yielded == numLayers + 2 && bufferMapping == map[] && PagesAt(numLayers)
    }

    /** Creating the generator and running it to its first pause. The buffers come from the
        allocator with arbitrary contents. */
    constructor (numLayers: nat, spans: Spans, slotMapping: seq<int>, rope: (int, int, R) -> R, zero: R,
                 pages: seq<Page<R>>, junk: seq<seq<R>>)
      requires numLayers >= 1 && spans.Valid() && spans.Last() <= |slotMapping| && |pages| == numLayers
      requires |junk| == 4 && forall i :: 0 <= i < 4 ==> |junk[i]| == spans.Width()
      ensures Valid() && pause == AwaitLayer(0) && fresh(Repr)
      ensures this.numLayers == numLayers && this.spans == spans && this.rope == rope && this.zero == zero
      ensures this.slots == slotMapping[spans.First()..spans.Last()] && this.initialPages == pages
    {
      var a := new GpuBuffer(junk[0], junk[1]);
      var b := new GpuBuffer(junk[2], junk[3]);
      var mask := ComputeGaps(spans);
      this.numLayers, this.spans, this.rope, this.zero := numLayers, spans, rope, zero;
      this.slots := slotMapping[spans.First()..spans.Last()];
      this.pages, this.initialPages := pages, pages;
      compute, load := a, b;
      bufferMapping := map[];
      gaps := mask;
      oldPositions := seq(spans.Width(), j => 0);
      pause, yielded, sent := AwaitLayer(0), 1, [];
      Repr := {this, a, b};
    }

    /** `torch.cuda.synchronize`: everything issued before has happened. */
    method Synchronize()
      requires Shape()
      modifies compute`landing, compute`flushing, load`landing, load`flushing
      ensures NothingInFlight()
    {
      compute.landing, compute.flushing := false, false;
      load.landing, load.flushing := false, false;
    }

    /** Copy one layer of every chunk into the load buffer, on the load stream. */
    method IssueLoad(layer: nat, objs: Layer<R>)
      requires Shape() && Fits(spans, objs)
      requires !load.flushing && !load.landing
      modifies load, this`oldPositions
      ensures load.landing && !load.flushing && |load.k| == |load.v| == spans.Width()
      ensures Filled(spans, objs.k, |spans.starts|, load.k) && Filled(spans, objs.v, |spans.starts|, load.v)
      ensures |oldPositions| == |old(oldPositions)|
      ensures layer == 0 ==> Filled(spans, objs.oldPositions, |spans.starts|, oldPositions)
      ensures layer > 0 ==> oldPositions == old(oldPositions)
    {
      load.landing := true;
      for c := 0 to |spans.starts|
        invariant load.landing && !load.flushing && |load.k| == |load.v| == spans.Width()
        invariant Filled(spans, objs.k, c, load.k) && Filled(spans, objs.v, c, load.v)
        invariant |oldPositions| == spans.Width()
        invariant layer == 0 ==> Filled(spans, objs.oldPositions, c, oldPositions)
        invariant layer > 0 ==> oldPositions == old(oldPositions)
      {
        FillOneMore(spans, objs.k, c, load.k);
        FillOneMore(spans, objs.v, c, load.v);
        load.k := Overwrite(spans, c, load.k, objs.k[c]);
        load.v := Overwrite(spans, c, load.v, objs.v[c]);
        if layer == 0 {
          FillOneMore(spans, objs.oldPositions, c, oldPositions);
          oldPositions := Overwrite(spans, c, oldPositions, objs.oldPositions[c]);
        }
      }
    }

    /** Re-rotate the compute buffer and zero its gaps. */
    method RotateAndClear(ghost first: Layer<R>, ghost objs: Layer<R>)
      requires Shape() && !compute.landing
      requires Fits(spans, first) && Fits(spans, objs)
      requires Filled(spans, first.oldPositions, |spans.starts|, oldPositions)
      requires Filled(spans, objs.k, |spans.starts|, compute.k) && Filled(spans, objs.v, |spans.starts|, compute.v)
      modifies compute`k, compute`v
      ensures compute.k == KeyRows(spans, rope, zero, first, objs) && compute.v == ValueRows(spans, zero, objs)
    {
      var n, offset := |compute.k|, spans.First();
      var k0, v0, positions, mask := compute.k, compute.v, oldPositions, gaps;
      var k1 := seq(n, j requires 0 <= j < n && n == |k0| == |positions| => rope(positions[j], offset + j, k0[j]));
      compute.k := seq(n, j requires 0 <= j < n && n == |k1| == |mask| => if mask[j] then zero else k1[j]);
      compute.v := seq(n, j requires 0 <= j < n && n == |v0| == |mask| => if mask[j] then zero else v0[j]);
      RotatedRows(spans, rope, zero, first, objs, k0, v0, positions, mask, compute.k, compute.v);
    }

    /** `single_layer_kv_transfer` of a buffered layer to the paged cache, on the compute stream. */
    method Flush(layer: nat)
      requires Shape() && layer < numLayers && layer in bufferMapping && bufferMapping[layer] == compute
      requires !compute.landing
      modifies this`pages, this`bufferMapping, compute`flushing
      ensures compute.flushing && bufferMapping == old(bufferMapping) - {layer}
      ensures |pages| == |old(pages)|
      ensures pages == old(pages)[layer := Page(Scatter(old(pages)[layer].k, slots, compute.k),
                                                Scatter(old(pages)[layer].v, slots, compute.v))]
    {
      var buffer := bufferMapping[layer];
      pages := pages[layer := Page(Scatter(pages[layer].k, slots, buffer.k), Scatter(pages[layer].v, slots, buffer.v))];
      buffer.flushing := true;
      bufferMapping := bufferMapping - {layer};
    }

    /** The first half of a resumption: load the awaited layer, flush the one before, wait. */
    method LoadAndFlush(layer: nat, objs: Layer<R>)
      requires Valid() && pause == AwaitLayer(layer) && Fits(spans, objs)
      modifies compute, load, this`oldPositions, this`pages, this`bufferMapping
      ensures Shape() && NothingInFlight() && PagesAt(layer) && bufferMapping == map[]
      ensures Filled(spans, objs.k, |spans.starts|, load.k) && Filled(spans, objs.v, |spans.starts|, load.v)
      ensures layer == 0 ==> Filled(spans, objs.oldPositions, |spans.starts|, oldPositions)
    {
      IssueLoad(layer, objs);
      if layer > 0 {
        Flush(layer - 1);
      }
      Synchronize();
    }

    /** The second half: swap the buffers and finish the one just loaded. */
    method SwapAndStage(objs: Layer<R>)
      requires Shape() && NothingInFlight() && |sent| < numLayers && PagesAt(|sent|) && Fits(spans, objs)
      requires Filled(spans, objs.k, |spans.starts|, load.k) && Filled(spans, objs.v, |spans.starts|, load.v)
      requires sent == [] ==> Filled(spans, objs.oldPositions, |spans.starts|, oldPositions)
      modifies load`k, load`v, this`compute, this`load, this`sent
      ensures compute == old(load) && load == old(compute) && sent == old(sent) + [objs]
      ensures Shape() && NothingInFlight() && PagesAt(|sent| - 1) && Staged()
    {
      compute, load := load, compute;
      sent := sent + [objs];
      assert forall l :: 0 <= l < |sent| - 1 ==> sent[l] == old(sent)[l];
      assert Shape();
      assert PagesAt(|sent| - 1);
      RotateAndClear(sent[0], objs);
    }

    /** Publish the staged layer and pause again. */
    method Publish(layer: nat)
      requires Shape() && |sent| == layer + 1 <= numLayers && Settled(layer) && Staged()
      requires yielded == layer + 1 && bufferMapping == map[]
      modifies this`bufferMapping, this`pause, this`yielded
      ensures Valid() && bufferMapping.Keys == {layer}
      ensures pause == if layer + 1 < numLayers then AwaitLayer(layer + 1) else Drain
    {
      bufferMapping := bufferMapping[layer := compute];
      pause := if layer + 1 < numLayers then AwaitLayer(layer + 1) else Drain;
      yielded := yielded + 1;
      assert bufferMapping == map[layer := compute];
    }

    /** Resuming with the memory objects of the awaited layer. */
    method Send(objs: Layer<R>)
      requires Valid() && pause.AwaitLayer? && Fits(spans, objs)
      modifies Repr
      ensures Valid() && sent == old(sent) + [objs]
      ensures pause == if |sent| < numLayers then AwaitLayer(|sent|) else Drain
      ensures bufferMapping.Keys == {|sent| - 1}
    {
      var layer := pause.layer;
      LoadAndFlush(layer, objs);
      SwapAndStage(objs);
      Publish(layer);
    }

    /** The last resumption: flush the last layer and give the buffers back. */
    method Finish()
      requires Valid() && pause.Drain?
      modifies Repr
      ensures Valid() && pause == Done && sent == old(sent)
    {
      Flush(numLayers - 1);
      assert bufferMapping == map[];
      pause := Done;
      yielded := yielded + 1;
    }
  }

  // ---- The driver --------------------------------------------------------------------------------

  /** `retrieve_layer` from the creation of the generator on: one resumption per layer and a last
      one. With no chunk to load the generator indexes an empty list and the call fails. */
  method RetrieveLayer<R>(numLayers: nat, spans: Spans, slotMapping: seq<int>, rope: (int, int, R) -> R, zero: R,
                          pages: seq<Page<R>>, layers: seq<Layer<R>>, junk: seq<seq<R>>)
    returns (ok: bool, out: seq<Page<R>>, yielded: nat)
    requires numLayers >= 1 && |pages| == |layers| == numLayers && |spans.starts| == |spans.ends|
    requires spans.starts != [] ==>
               && spans.Valid() && spans.Last() <= |slotMapping|
               && (forall l :: 0 <= l < numLayers ==> Fits(spans, layers[l]))
               && |junk| == 4 && (forall i :: 0 <= i < 4 ==> |junk[i]| == spans.Width())
    ensures ok == (spans.starts != [])
    ensures !ok ==> out == pages
    ensures ok ==>
              && yielded == numLayers + 2 && |out| == numLayers
              && forall l :: 0 <= l < numLayers ==>
                   out[l] == FlushedPage(spans, slotMapping[spans.First()..spans.Last()], rope, zero, pages[l],
                                         layers[0], layers[l])
  {
    if spans.starts == [] {
      return false, pages, 0;
    }
    var consumer := new LayerLoader(numLayers, spans, slotMapping, rope, zero, pages, junk);
    Drive(consumer, layers);
    ok, out, yielded := true, consumer.pages, consumer.yielded;
  }

  method Drive<R>(consumer: LayerLoader<R>, layers: seq<Layer<R>>)
    requires consumer.Valid() && consumer.pause == AwaitLayer(0) && |layers| == consumer.numLayers
    requires forall l :: 0 <= l < |layers| ==> Fits(consumer.spans, layers[l])
    modifies consumer.Repr
    ensures consumer.Valid() && consumer.pause == Done && consumer.sent == layers
  {
    for l := 0 to |layers|
      invariant consumer.Valid() && consumer.sent == layers[..l]
      invariant consumer.pause == if l < |layers| then AwaitLayer(l) else Drain
    {
      consumer.Send(layers[l]);
    }
    consumer.Finish();
  }

  /** What a reader of the paged cache sees: with distinct slots, every cached token's key re-rotated
      to its new position and its value unchanged, every gap token zero, every other slot as before. */
  lemma LoadedTokens<R>(spans: Spans, slots: seq<int>, rope: (int, int, R) -> R, zero: R, page: Page<R>,
                        first: Layer<R>, objs: Layer<R>, p: int)
    requires spans.Valid() && Fits(spans, first) && Fits(spans, objs) && |slots| == spans.Width()
    requires forall i, j :: 0 <= i < j < |slots| ==> slots[i] != slots[j]
    requires spans.First() <= p < spans.Last()
    ensures var out := FlushedPage(spans, slots, rope, zero, page, first, objs);
            var slot := slots[p - spans.First()]; var c := spans.ChunkAt(p);
            && slot in out.k && slot in out.v
            && (c < |spans.starts| ==>
                  && out.k[slot] == rope(first.oldPositions[c][p - spans.starts[c]], p, objs.k[c][p - spans.starts[c]])
                  && out.v[slot] == objs.v[c][p - spans.starts[c]])
            && (c == |spans.starts| ==> out.k[slot] == zero && out.v[slot] == zero)
            && (forall x :: x !in slots ==> (x in out.k <==> x in page.k) && (x in page.k ==> out.k[x] == page.k[x]))
            && (forall x :: x !in slots ==> (x in out.v <==> x in page.v) && (x in page.v ==> out.v[x] == page.v[x]))
  {
    var k, v := KeyRows(spans, rope, zero, first, objs), ValueRows(spans, zero, objs);
    ScatterMeaning(page.k, slots, k);
    ScatterMeaning(page.v, slots, v);
    var j := p - spans.First();
    assert k[j] == KeyRow(spans, rope, zero, first, objs, spans.First() + j);
    assert v[j] == ValueRow(spans, zero, objs, spans.First() + j);
  }
}
