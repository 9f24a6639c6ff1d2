/** Layer-by-layer storing from paged memory: `batched_from_gpu` as a resumable object, `store_layer`
    driving it, and the round trip with loading. */
module LayerwiseStore {
  import opened LayerwiseLoad

  /** `single_layer_kv_transfer` away from the paged cache. */
  function Gather<R>(mem: map<int, R>, slots: seq<int>): (rows: seq<R>)
    requires forall j :: 0 <= j < |slots| ==> slots[j] in mem
    ensures |rows| == |slots| && forall j :: 0 <= j < |slots| ==> rows[j] == mem[slots[j]]
  {
    seq(|slots|, j requires 0 <= j < |slots| => mem[slots[j]])
  }

  /** Every slot of the mapping exists in the page. */
  ghost predicate Backed<R>(page: Page<R>, slotMapping: seq<int>) {
    forall j :: 0 <= j < |slotMapping| ==> slotMapping[j] in page.k && slotMapping[j] in page.v
  }

  function Positions(from: nat, to: nat): (ps: seq<int>)
    requires from <= to
    ensures |ps| == to - from && forall j :: 0 <= j < |ps| ==> ps[j] == from + j
  {
    seq(to - from, j => from + j)
  }

  // ---- What one layer should be stored as --------------------------------------------------------

  /** Chunk by chunk the paged rows at the chunk's slots, with the positions they had. */
  ghost predicate IsStored<R>(sp: Spans, slotMapping: seq<int>, page: Page<R>, layer: Layer<R>)
    requires sp.Valid() && sp.Last() <= |slotMapping| && Backed(page, slotMapping)
  {
    && Fits(sp, layer)
    && forall c :: 0 <= c < |sp.starts| ==> IsStoredChunk(sp, slotMapping, page, layer, c)
  }

  ghost predicate IsStoredChunk<R>(sp: Spans, slotMapping: seq<int>, page: Page<R>, layer: Layer<R>, c: nat)
    requires sp.Valid() && sp.Last() <= |slotMapping| && Backed(page, slotMapping) && Fits(sp, layer) && c < |sp.starts|
  {
    ChunkCopied(sp, slotMapping, page, c, layer.k[c], layer.v[c], layer.oldPositions[c])
  }

  ghost predicate ChunkCopied<R>(sp: Spans, slotMapping: seq<int>, page: Page<R>, c: nat,
                                 k: seq<R>, v: seq<R>, positions: seq<int>)
    requires sp.Valid() && sp.Last() <= |slotMapping| && Backed(page, slotMapping) && c < |sp.starts|
    requires |k| == |v| == |positions| == sp.ends[c] - sp.starts[c]
  {
    SpanInside(sp, c);
    forall j :: 0 <= j < |k| ==>
      && k[j] == page.k[slotMapping[sp.starts[c] + j]] && v[j] == page.v[slotMapping[sp.starts[c] + j]]
      && positions[j] == sp.starts[c] + j
  }

  // ---- The generator -----------------------------------------------------------------------------

  /** The slots of all chunks one after the other, and where each chunk starts in them. */
  ghost predicate IsPacked(sp: Spans, slotMapping: seq<int>, n: nat, slots: seq<int>, offsets: seq<nat>)
    requires sp.Valid() && sp.Last() <= |slotMapping| && n <= |sp.starts|
  {
    && |offsets| == n + 1 && offsets[0] == 0 && offsets[n] == |slots|
    && (forall c :: 0 <= c < n ==> offsets[c] + (sp.ends[c] - sp.starts[c]) == offsets[c + 1])
    && (forall c :: 0 <= c <= n ==> offsets[c] <= |slots|)
    && (forall c, j :: 0 <= c < n && 0 <= j < sp.ends[c] - sp.starts[c] ==>
          PackedAt(sp, slotMapping, slots, offsets, c, j))
    && (forall j :: 0 <= j < |slots| ==> slots[j] in slotMapping)
  }

  ghost predicate PackedAt(sp: Spans, slotMapping: seq<int>, slots: seq<int>, offsets: seq<nat>, c: nat, j: nat)
    requires sp.Valid() && sp.Last() <= |slotMapping| && c < |sp.starts| && c < |offsets|
    requires j < sp.ends[c] - sp.starts[c]
  {
    SpanInside(sp, c);
    offsets[c] + j < |slots| && slots[offsets[c] + j] == slotMapping[sp.starts[c] + j]
  }

  method PackSlots(sp: Spans, slotMapping: seq<int>) returns (slots: seq<int>, offsets: seq<nat>)
    requires sp.Valid() && sp.Last() <= |slotMapping|
    ensures IsPacked(sp, slotMapping, |sp.starts|, slots, offsets)
  {
    slots, offsets := [], [0];
    for c := 0 to |sp.starts|
      invariant IsPacked(sp, slotMapping, c, slots, offsets)
    {
      SpanInside(sp, c);
      var chunk := slotMapping[sp.starts[c]..sp.ends[c]];
      PackOneMore(sp, slotMapping, c, slots, offsets);
      slots := slots + chunk;
      offsets := offsets + [offsets[c] + (sp.ends[c] - sp.starts[c])];
    }
  }

  lemma PackOneMore(sp: Spans, slotMapping: seq<int>, c: nat, slots: seq<int>, offsets: seq<nat>)
    requires sp.Valid() && sp.Last() <= |slotMapping| && c < |sp.starts| && IsPacked(sp, slotMapping, c, slots, offsets)
    requires sp.First() <= sp.starts[c] && sp.ends[c] <= sp.Last()
    ensures IsPacked(sp, slotMapping, c + 1, slots + slotMapping[sp.starts[c]..sp.ends[c]],
                     offsets + [offsets[c] + (sp.ends[c] - sp.starts[c])])
  {
    var chunk := slotMapping[sp.starts[c]..sp.ends[c]];
    var slots', offsets' := slots + chunk, offsets + [offsets[c] + (sp.ends[c] - sp.starts[c])];
    forall d, j | 0 <= d < c + 1 && 0 <= j < sp.ends[d] - sp.starts[d]
      ensures PackedAt(sp, slotMapping, slots', offsets', d, j)
    {
      if d < c {
        assert PackedAt(sp, slotMapping, slots, offsets, d, j);
      } else {
        assert slots'[offsets[c] + j] == chunk[j];
      }
    }
    forall j | 0 <= j < |slots'| ensures slots'[j] in slotMapping {
      if j >= |slots| {
        assert slots'[j] == slotMapping[sp.starts[c] + (j - |slots|)];
      }
    }
  }

  datatype Pause = Issued(layer: nat) | Finished

  class LayerStorer<R> {
    const numLayers: nat
    const spans: Spans
    const slotMapping: seq<int>
    const slots: seq<int>
    const offsets: seq<nat>

    var pause: Pause
    var yielded: nat
    /** The memory objects whose copies have completed, layer by layer. */
    var objects: seq<Layer<R>>
    /** The layer whose copy is running on the store stream, if any. */
    var inFlight: seq<Layer<R>>

    /** The pages as they were when their copy was issued. */
    ghost var sources: seq<Page<R>>

    ghost predicate Shape()
      reads this`objects, this`inFlight, this`sources
    {
      && numLayers >= 1 && spans.Valid() && spans.Last() <= |slotMapping|
      && IsPacked(spans, slotMapping, |spans.starts|, slots, offsets)
      && |inFlight| <= 1 && |objects| + |inFlight| == |sources| <= numLayers
      && (forall l :: 0 <= l < |sources| ==> Backed(sources[l], slotMapping))
      && (forall l :: 0 <= l < |objects| ==> IsStored(spans, slotMapping, sources[l], objects[l]))
      && (inFlight != [] ==> IsStored(spans, slotMapping, sources[|objects|], inFlight[0]))
    }

    ghost predicate Valid()
      reads this
    {
      && Shape()
      && match pause
         case Issued(l) => inFlight != [] && l == |objects| && yielded == l + 1
         case Finished => inFlight == [] && |objects| == numLayers && yielded == numLayers + 1
    }

    lemma CopyRight(page: Page<R>, k: seq<R>, v: seq<R>, positions: seq<int>, c: nat)
      requires spans.Valid() && spans.Last() <= |slotMapping| && Backed(page, slotMapping) && c < |spans.starts|
      requires IsPacked(spans, slotMapping, |spans.starts|, slots, offsets)
      requires |k| == |v| == |positions| == spans.ends[c] - spans.starts[c] && offsets[c] + |k| <= |slots|
      requires forall j :: 0 <= j < |slots| ==> slots[j] in page.k && slots[j] in page.v
      requires forall j :: 0 <= j < |k| ==>
                 k[j] == page.k[slots[offsets[c] + j]] && v[j] == page.v[slots[offsets[c] + j]]
      requires forall j :: 0 <= j < |positions| ==> positions[j] == spans.starts[c] + j
      ensures ChunkCopied(spans, slotMapping, page, c, k, v, positions)
    {
      SpanInside(spans, c);
      forall j | 0 <= j < |k|
        ensures k[j] == page.k[slotMapping[spans.starts[c] + j]] && v[j] == page.v[slotMapping[spans.starts[c] + j]]
      {
        assert PackedAt(spans, slotMapping, slots, offsets, c, j);
      }
    }

    /** One chunk from the staging buffer to a fresh memory object. */
    method CopyChunk(page: Page<R>, bufferK: seq<R>, bufferV: seq<R>, c: nat)
      returns (k: seq<R>, v: seq<R>, positions: seq<int>)
      requires spans.Valid() && spans.Last() <= |slotMapping| && Backed(page, slotMapping) && c < |spans.starts|
      requires IsPacked(spans, slotMapping, |spans.starts|, slots, offsets)
      requires forall j :: 0 <= j < |slots| ==> slots[j] in page.k && slots[j] in page.v
      requires bufferK == Gather(page.k, slots) && bufferV == Gather(page.v, slots)
      ensures |k| == |v| == |positions| == spans.ends[c] - spans.starts[c]
      ensures ChunkCopied(spans, slotMapping, page, c, k, v, positions)
    {
      assert offsets[c] + (spans.ends[c] - spans.starts[c]) == offsets[c + 1] && offsets[c + 1] <= |slots|;
      var s, e := offsets[c], offsets[c + 1];
      k, v, positions := bufferK[s..e], bufferV[s..e], Positions(spans.starts[c], spans.ends[c]);
      CopyRight(page, k, v, positions, c);
    }

    /** One layer from paged memory to the staging buffer to fresh memory objects. */
    method CopyLayer(page: Page<R>) returns (layer: Layer<R>)
      requires spans.Valid() && spans.Last() <= |slotMapping| && Backed(page, slotMapping)
      requires IsPacked(spans, slotMapping, |spans.starts|, slots, offsets)
      ensures IsStored(spans, slotMapping, page, layer)
    {
      assert forall j :: 0 <= j < |slots| ==> slots[j] in slotMapping;
      var bufferK, bufferV := Gather(page.k, slots), Gather(page.v, slots);
      var k: seq<seq<R>>, v: seq<seq<R>>, positions: seq<seq<int>> := [], [], [];
      for c := 0 to |spans.starts|
        invariant |k| == |v| == |positions| == c
        invariant forall d :: 0 <= d < c ==>
                    && |k[d]| == |v[d]| == |positions[d]| == spans.ends[d] - spans.starts[d]
                    && ChunkCopied(spans, slotMapping, page, d, k[d], v[d], positions[d])
      {
        var chunkK, chunkV, chunkPositions := CopyChunk(page, bufferK, bufferV, c);
        k, v, positions := k + [chunkK], v + [chunkV], positions + [chunkPositions];
      }
      layer := Layer(k, v, positions);
      forall d | 0 <= d < |spans.starts| ensures IsStoredChunk(spans, slotMapping, page, layer, d) {
        assert ChunkCopied(spans, slotMapping, page, d, k[d], v[d], positions[d]);
      }
    }

    /** Issue the copy of the next layer. */
    method Issue(page: Page<R>)
      requires Shape() && inFlight == [] && |sources| < numLayers && Backed(page, slotMapping)
      modifies this`inFlight, this`sources
      ensures Shape() && inFlight != [] && sources == old(sources) + [page]
    {
      var layer := CopyLayer(page);
      inFlight, sources := [layer], sources + [page];
    }

    /** `store_stream.synchronize`: the issued copy has completed. */
    method Synchronize()
      requires Shape()
      modifies this`objects, this`inFlight
      ensures Shape() && inFlight == [] && objects == old(objects + inFlight)
    {
      objects, inFlight := objects + inFlight, [];
    }

    /** Creating the generator and running it to its first pause: the first layer's copy is issued. */
    constructor (numLayers: nat, spans: Spans, slotMapping: seq<int>, page: Page<R>)
      requires numLayers >= 1 && spans.Valid() && spans.Last() <= |slotMapping| && Backed(page, slotMapping)
      ensures Valid() && pause == Issued(0) && sources == [page]
      ensures this.numLayers == numLayers && this.spans == spans && this.slotMapping == slotMapping
    {
      var packed, starts := PackSlots(spans, slotMapping);
      this.numLayers, this.spans, this.slotMapping, slots, offsets := numLayers, spans, slotMapping, packed, starts;
      objects, inFlight, sources, pause, yielded := [], [], [], Issued(0), 1;
      new;
      Issue(page);
    }

    /** Resuming: wait for the issued layer, then issue the next one or finish. */
    method Resume(next: Page<R>)
      requires Valid() && pause.Issued? && (|sources| < numLayers ==> Backed(next, slotMapping))
      modifies this
      ensures Valid() && |objects| == old(pause).layer + 1
      ensures sources == old(sources) + (if |old(sources)| < numLayers then [next] else [])
      ensures pause == if |old(sources)| < numLayers then Issued(|old(sources)|) else Finished
    {
      Synchronize();
      yielded := yielded + 1;
      if |objects| < numLayers {
        pause := Issued(|objects|);
        Issue(next);
      } else {
        pause := Finished;
      }
    }
  }

  /** `store_layer` once the chunks to store are known: layer `l` is put only after its copy has
      landed, in layer order, and what is put are the paged rows at the chunks' slots. */
  method StoreLayer<R>(numLayers: nat, spans: Spans, slotMapping: seq<int>, pages: seq<Page<R>>)
    returns (puts: seq<Layer<R>>)
    requires numLayers >= 1 && |pages| == numLayers && |spans.starts| == |spans.ends|
    requires spans.starts != [] ==>
               && spans.Valid() && spans.Last() <= |slotMapping|
               && forall l :: 0 <= l < numLayers ==> Backed(pages[l], slotMapping)
    ensures spans.starts == [] ==> puts == []
    ensures spans.starts != [] ==>
              && |puts| == numLayers
              && forall l :: 0 <= l < numLayers ==> IsStored(spans, slotMapping, pages[l], puts[l])
  {
    puts := [];
    if spans.starts == [] {
      return;
    }
    var generator := new LayerStorer(numLayers, spans, slotMapping, pages[0]);
    for l := 0 to numLayers
      invariant fresh(generator) && generator.Valid() && |puts| == l
      invariant generator.numLayers == numLayers && generator.spans == spans && generator.slotMapping == slotMapping
      invariant generator.pause == if l < numLayers then Issued(l) else Finished
      invariant generator.sources == if l < numLayers then pages[..l + 1] else pages
      invariant forall i :: 0 <= i < l ==> IsStored(spans, slotMapping, pages[i], puts[i])
    {
      var layer := NextLayer(generator, pages, l);
      puts := puts + [layer];
    }
  }

  /** Advance the generator by one pause and take the layer that has landed. */
  method NextLayer<R>(generator: LayerStorer<R>, pages: seq<Page<R>>, l: nat) returns (layer: Layer<R>)
    requires generator.Valid() && l < generator.numLayers == |pages| && generator.pause == Issued(l)
    requires generator.sources == pages[..l + 1]
    requires forall i :: 0 <= i < |pages| ==> Backed(pages[i], generator.slotMapping)
    modifies generator
    ensures generator.Valid() && IsStored(generator.spans, generator.slotMapping, pages[l], layer)
    ensures l + 1 < |pages| ==> generator.pause == Issued(l + 1) && generator.sources == pages[..l + 2]
    ensures l + 1 == |pages| ==> generator.pause == Finished && generator.sources == pages
  {
    generator.Resume(if l + 1 < |pages| then pages[l + 1] else pages[l]);
    assert generator.sources[l] == pages[l];
    layer := generator.objects[l];
  }

  /** Storing and loading at the same positions and distinct slots restores every stored row,
      whatever the pages held in between. */
  lemma StoreThenLoad<R>(sp: Spans, slotMapping: seq<int>, rope: (int, int, R) -> R, zero: R,
                         firstPage: Page<R>, page: Page<R>, later: Page<R>, first: Layer<R>, stored: Layer<R>, p: nat)
    requires sp.Valid() && sp.Last() <= |slotMapping| && Backed(firstPage, slotMapping) && Backed(page, slotMapping)
    requires IsStored(sp, slotMapping, firstPage, first) && IsStored(sp, slotMapping, page, stored)
    requires forall q: int, x: R :: rope(q, q, x) == x
    requires forall i, j :: 0 <= i < j < |slotMapping| ==> slotMapping[i] != slotMapping[j]
    requires sp.ChunkAt(p) < |sp.starts|
    ensures p < |slotMapping|
    ensures var out := FlushedPage(sp, slotMapping[sp.First()..sp.Last()], rope, zero, later, first, stored);
            var slot := slotMapping[p];
            slot in out.k && slot in out.v && out.k[slot] == page.k[slot] && out.v[slot] == page.v[slot]
  {
    var c := sp.ChunkAt(p);
    SpanInside(sp, c);
    var slots := slotMapping[sp.First()..sp.Last()];
    assert slots[p - sp.First()] == slotMapping[p];
    LoadedTokens(sp, slots, rope, zero, later, first, stored, p);
    assert IsStoredChunk(sp, slotMapping, page, stored, c) && IsStoredChunk(sp, slotMapping, firstPage, first, c);
    var j := p - sp.starts[c];
    assert sp.starts[c] + j == p && stored.k[c][j] == page.k[slotMapping[p]] && first.oldPositions[c][j] == p;
  }
}
